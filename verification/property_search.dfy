/** The query assembly of `getAllProperties` (server/database.js): from a
    sparse record of search options and a row limit, it builds a SQL text by
    appending fixed fragments, and the positional parameter list the
    fragments refer to as `$1`, `$2`, ...

    The text is modelled as the sequence of fragments appended, one `Clause`
    per template literal, with `ClauseText` giving each fragment's exact
    characters. The builder itself (`Build`) follows the source step by step,
    including its `countOptions` counter; `Criteria` and `ExpectedKeyword`
    describe the same output declaratively, and `BuildFollowsCriteria`
    connects the two. */
module PropertySearch {
  import opened JsValues

  /** The options object. `None` is an absent property; a present property
      still counts as absent when it is falsy (`0` or `""`). */
  datatype SearchOptions = SearchOptions(
    city: Option<string>,
    ownerId: Option<int>,
    minimumPricePerNight: Option<int>,
    maximumPricePerNight: Option<int>,
    minimumRating: Option<int>)

  /** A positional parameter: the city pattern is text, the rest are numbers. */
  datatype Param = Text(text: string) | Number(number: int)

  datatype Keyword = Where | And

  /** The four filters the search can apply. */
  datatype Condition = CityLike | OwnerIs | CostAtLeast | CostAtMost

  /** One appended fragment of the query text; `ref` is the placeholder
      number the fragment mentions. */
  datatype Clause =
    | Select
    | Filter(keyword: Keyword, condition: Condition, ref: nat)
    | GroupBy
    | GroupByHaving(ref: nat)
    | OrderByLimit(ref: nat)

  predicate IsGrouping(c: Clause) {
    c.GroupBy? || c.GroupByHaving?
  }

  /** Whether a clause mentions a placeholder. */
  predicate HasRef(c: Clause) {
    c.Filter? || c.GroupByHaving? || c.OrderByLimit?
  }

  // ---------------------------------------------------------------------
  // Rendering

  function KeywordText(k: Keyword): string {
    match k
    case Where => "WHERE"
    case And => "AND"
  }

  function ConditionText(c: Condition): string {
    match c
    case CityLike => "city LIKE"
    case OwnerIs => "properties.owner_id ="
    case CostAtLeast => "cost_per_night >="
    case CostAtMost => "cost_per_night <="
  }

  function Placeholder(n: nat): string {
    "$" + DecimalString(n)
  }

  /** What follows the keyword of a filter: `city LIKE $1 `, say. */
  function FilterTail(cond: Condition, n: nat): string {
    " " + ConditionText(cond) + " " + Placeholder(n) + " "
  }

  // The fixed texts are written in short pieces; the characters are those
  // of the template literals, line breaks and indentation included.
  const SelectText: string :=
    "\n  SELECT properties.*, " + "avg(property_reviews.rating) " + "as average_rating\n"
    + "  FROM properties\n"
    + "  JOIN property_reviews " + "ON properties.id = property_id\n  "

  const GroupByText: string :=
    "\n    GROUP BY properties.id, " + "property_reviews.property_id\n    "

  const HavingText: string :=
    "HAVING avg(" + "property_reviews.rating) " + ">= "

  const OrderByText: string :=
    "\n  ORDER BY cost_per_night\n" + "  LIMIT "

  function ClauseText(c: Clause): string {
    match c
    case Select => SelectText
    case Filter(k, cond, n) => KeywordText(k) + FilterTail(cond, n)
    case GroupBy => GroupByText
    case GroupByHaving(n) => GroupByText + HavingText + Placeholder(n) + " \n    "
    case OrderByLimit(n) => OrderByText + Placeholder(n) + ";\n  "
  }

  /** The query string: each fragment appended in turn (`queryString += ...`). */
  function QueryText(cs: seq<Clause>): string {
    if |cs| == 0 then "" else QueryText(cs[..|cs| - 1]) + ClauseText(cs[|cs| - 1])
  }

  // ---------------------------------------------------------------------
  // The builder, step by step as in the source

  /** The city parameter: the string without its first and last character,
      which suits a city wrapped in quotes, between `%` wildcards. */
  function CityPattern(city: string): (p: string)
    requires |city| > 0
    ensures |p| >= 2 && p[0] == '%' && p[|p| - 1] == '%'
    ensures |city| >= 2 ==> p[1..|p| - 1] == city[1..|city| - 1]
    ensures |city| <= 2 ==> p == "%%"
  {
    "%" + Slice(city, 1, |city| - 1) + "%"
  }

  /** `queryString`, `queryParams` and `countOptions` between two steps. */
  datatype Builder = Builder(clauses: seq<Clause>, params: seq<Param>, countOptions: nat)

  function Start(): Builder {
    Builder([Select], [], 0)
  }

  function AddCity(b: Builder, city: Option<string>): Builder {
    if TruthyString(city) then
      var params := b.params + [Text(CityPattern(city.value))];
      Builder(b.clauses + [Filter(Where, CityLike, |params|)], params, b.countOptions + 1)
    else b
  }

  function AddOwner(b: Builder, ownerId: Option<int>): Builder {
    if TruthyNumber(ownerId) then
      var params := b.params + [Number(ownerId.value)];
      Builder(b.clauses + [Filter(Where, OwnerIs, |params|)], params, b.countOptions)
    else b
  }

  function AddMinimumPrice(b: Builder, price: Option<int>): Builder {
    if TruthyNumber(price) then
      var count := b.countOptions + 1;
      var params := b.params + [Number(price.value * 100)];
      var keyword := if count > 1 then And else Where;
      Builder(b.clauses + [Filter(keyword, CostAtLeast, |params|)], params, count)
    else b
  }

  function AddMaximumPrice(b: Builder, price: Option<int>): Builder {
    if TruthyNumber(price) then
      var count := b.countOptions + 1;
      var params := b.params + [Number(price.value * 100)];
      var keyword := if count > 1 then And else Where;
      Builder(b.clauses + [Filter(keyword, CostAtMost, |params|)], params, count)
    else b
  }

  function AddGrouping(b: Builder, rating: Option<int>): Builder {
    if TruthyNumber(rating) then
      var params := b.params + [Number(rating.value)];
      Builder(b.clauses + [GroupByHaving(|params|)], params, b.countOptions)
    else
      Builder(b.clauses + [GroupBy], b.params, b.countOptions)
  }

  function AddLimit(b: Builder, limit: int): Builder {
    var params := b.params + [Number(limit)];
    Builder(b.clauses + [OrderByLimit(|params|)], params, b.countOptions)
  }

  /** The filter part: city, owner, minimum price, maximum price, in that order. */
  function AddFilters(o: SearchOptions): Builder {
    var b1 := AddCity(Start(), o.city);
    var b2 := AddOwner(b1, o.ownerId);
    var b3 := AddMinimumPrice(b2, o.minimumPricePerNight);
    AddMaximumPrice(b3, o.maximumPricePerNight)
  }

  function Build(o: SearchOptions, limit: int): Builder {
    AddLimit(AddGrouping(AddFilters(o), o.minimumRating), limit)
  }

  /** What is handed to `pool.query`. */
  datatype Query = Query(text: string, params: seq<Param>)

  function GetAllProperties(options: SearchOptions, limit: int := 10): (q: Query)
    ensures |q.params| > 0 && q.params[|q.params| - 1] == Number(limit)
  {
    var b := Build(options, limit);
    Query(QueryText(b.clauses), b.params)
  }

  // ---------------------------------------------------------------------
  // The same output, described declaratively

  /** A filter that applies, with the parameter it binds. */
  datatype Criterion = Criterion(condition: Condition, value: Param)

  function CityCriteria(city: Option<string>): seq<Criterion> {
    if TruthyString(city) then [Criterion(CityLike, Text(CityPattern(city.value)))] else []
  }

  function OwnerCriteria(ownerId: Option<int>): seq<Criterion> {
    if TruthyNumber(ownerId) then [Criterion(OwnerIs, Number(ownerId.value))] else []
  }

  function MinimumCriteria(price: Option<int>): seq<Criterion> {
    if TruthyNumber(price) then [Criterion(CostAtLeast, Number(price.value * 100))] else []
  }

  function MaximumCriteria(price: Option<int>): seq<Criterion> {
    if TruthyNumber(price) then [Criterion(CostAtMost, Number(price.value * 100))] else []
  }

  /** The filters that apply, in the order the source tests them. */
  function Criteria(o: SearchOptions): seq<Criterion> {
    CityCriteria(o.city) + OwnerCriteria(o.ownerId)
    + MinimumCriteria(o.minimumPricePerNight) + MaximumCriteria(o.maximumPricePerNight)
  }

  /** The filters `countOptions` counts: every one but the owner filter. */
  predicate Counted(c: Condition) {
    c != OwnerIs
  }

  predicate IsPriceBound(c: Condition) {
    c == CostAtLeast || c == CostAtMost
  }

  /** A price bound after a counted filter is joined with AND; every other
      filter opens with WHERE. */
  function ExpectedKeyword(cs: seq<Criterion>, i: nat): Keyword
    requires i < |cs|
  {
    if IsPriceBound(cs[i].condition) && exists j :: 0 <= j < i && Counted(cs[j].condition)
    then And else Where
  }

  function ExpectedKeywords(cs: seq<Criterion>): seq<Keyword> {
    seq(|cs|, i requires 0 <= i < |cs| => ExpectedKeyword(cs, i))
  }

  /** The filter clauses for `cs`, the i-th saying `kws[i]` and mentioning `$i+1`. */
  function FilterClauses(cs: seq<Criterion>, kws: seq<Keyword>): seq<Clause>
    requires |kws| == |cs|
  {
    seq(|cs|, i requires 0 <= i < |cs| => Filter(kws[i], cs[i].condition, i + 1))
  }

  function Values(cs: seq<Criterion>): seq<Param> {
    seq(|cs|, i requires 0 <= i < |cs| => cs[i].value)
  }

  function CountCounted(cs: seq<Criterion>): nat {
    if |cs| == 0 then 0
    else CountCounted(cs[..|cs| - 1]) + (if Counted(cs[|cs| - 1].condition) then 1 else 0)
  }

  /** The number of options that are present (truthy). */
  function PresentCount(o: SearchOptions): nat {
    (if TruthyString(o.city) then 1 else 0)
    + (if TruthyNumber(o.ownerId) then 1 else 0)
    + (if TruthyNumber(o.minimumPricePerNight) then 1 else 0)
    + (if TruthyNumber(o.maximumPricePerNight) then 1 else 0)
    + (if TruthyNumber(o.minimumRating) then 1 else 0)
  }

  /** Whether some filter that `countOptions` counts is present. */
  predicate AnyCounted(o: SearchOptions) {
    TruthyString(o.city) || TruthyNumber(o.minimumPricePerNight) || TruthyNumber(o.maximumPricePerNight)
  }

  // ---------------------------------------------------------------------
  // Builder and description agree

  /** `b` is what the builder holds after appending the filters `cs`. */
  predicate Tracks(b: Builder, cs: seq<Criterion>) {
    && b.clauses == [Select] + FilterClauses(cs, ExpectedKeywords(cs))
    && b.params == Values(cs)
    && b.countOptions == CountCounted(cs)
  }

  lemma {:induction false} CountCountedPositive(cs: seq<Criterion>)
    ensures CountCounted(cs) > 0 <==> exists j :: 0 <= j < |cs| && Counted(cs[j].condition)
  {
    if |cs| > 0 {
      var init := cs[..|cs| - 1];
      CountCountedPositive(init);
      if exists j :: 0 <= j < |init| && Counted(init[j].condition) {
        var j :| 0 <= j < |init| && Counted(init[j].condition);
        assert cs[j] == init[j];
      }
      if exists j :: 0 <= j < |cs| && Counted(cs[j].condition) {
        var j :| 0 <= j < |cs| && Counted(cs[j].condition);
        if j < |init| {
          assert init[j] == cs[j];
        }
      }
    }
  }

  lemma FilterClausesAppend(cs: seq<Criterion>, kws: seq<Keyword>, x: Criterion, k: Keyword)
    requires |kws| == |cs|
    ensures FilterClauses(cs + [x], kws + [k]) == FilterClauses(cs, kws) + [Filter(k, x.condition, |cs| + 1)]
    ensures Values(cs + [x]) == Values(cs) + [x.value]
  {
    assert FilterClauses(cs + [x], kws + [k]) == FilterClauses(cs, kws) + [Filter(k, x.condition, |cs| + 1)];
    assert Values(cs + [x]) == Values(cs) + [x.value];
  }

  /** Appending one filter extends the description by one clause and one
      parameter, and leaves the keywords of the earlier filters alone. */
  lemma AppendTracks(b: Builder, cs: seq<Criterion>, x: Criterion, b': Builder)
    requires Tracks(b, cs)
    requires b'.params == b.params + [x.value]
    requires b'.clauses == b.clauses + [Filter(ExpectedKeyword(cs + [x], |cs|), x.condition, |b'.params|)]
    requires b'.countOptions == b.countOptions + (if Counted(x.condition) then 1 else 0)
    ensures Tracks(b', cs + [x])
  {
    var cs' := cs + [x];
    assert cs'[..|cs'| - 1] == cs;
    forall i | 0 <= i < |cs|
      ensures ExpectedKeyword(cs', i) == ExpectedKeyword(cs, i)
    {
      assert forall j :: 0 <= j < i ==> cs'[j] == cs[j];
    }
    assert ExpectedKeywords(cs') == ExpectedKeywords(cs) + [ExpectedKeyword(cs', |cs|)];
    FilterClausesAppend(cs, ExpectedKeywords(cs), x, ExpectedKeyword(cs', |cs|));
  }

  /** The keyword `count > 1` picks for a price bound is the expected one. */
  lemma PriceKeyword(cs: seq<Criterion>, x: Criterion)
    requires IsPriceBound(x.condition)
    ensures ExpectedKeyword(cs + [x], |cs|) == (if CountCounted(cs) + 1 > 1 then And else Where)
  {
    CountCountedPositive(cs);
    var cs' := cs + [x];
    assert forall j :: 0 <= j < |cs| ==> cs'[j] == cs[j];
  }

  lemma AddCityTracks(b: Builder, cs: seq<Criterion>, city: Option<string>)
    requires Tracks(b, cs)
    ensures Tracks(AddCity(b, city), cs + CityCriteria(city))
  {
    if TruthyString(city) {
      AppendTracks(b, cs, CityCriteria(city)[0], AddCity(b, city));
    } else {
      assert cs + CityCriteria(city) == cs;
    }
  }

  lemma AddOwnerTracks(b: Builder, cs: seq<Criterion>, ownerId: Option<int>)
    requires Tracks(b, cs)
    ensures Tracks(AddOwner(b, ownerId), cs + OwnerCriteria(ownerId))
  {
    if TruthyNumber(ownerId) {
      AppendTracks(b, cs, OwnerCriteria(ownerId)[0], AddOwner(b, ownerId));
    } else {
      assert cs + OwnerCriteria(ownerId) == cs;
    }
  }

  lemma AddMinimumPriceTracks(b: Builder, cs: seq<Criterion>, price: Option<int>)
    requires Tracks(b, cs)
    ensures Tracks(AddMinimumPrice(b, price), cs + MinimumCriteria(price))
  {
    if TruthyNumber(price) {
      PriceKeyword(cs, MinimumCriteria(price)[0]);
      AppendTracks(b, cs, MinimumCriteria(price)[0], AddMinimumPrice(b, price));
    } else {
      assert cs + MinimumCriteria(price) == cs;
    }
  }

  lemma AddMaximumPriceTracks(b: Builder, cs: seq<Criterion>, price: Option<int>)
    requires Tracks(b, cs)
    ensures Tracks(AddMaximumPrice(b, price), cs + MaximumCriteria(price))
  {
    if TruthyNumber(price) {
      PriceKeyword(cs, MaximumCriteria(price)[0]);
      AppendTracks(b, cs, MaximumCriteria(price)[0], AddMaximumPrice(b, price));
    } else {
      assert cs + MaximumCriteria(price) == cs;
    }
  }

  /** After the four filter steps the builder holds exactly the filters
      `Criteria` lists, with the keywords `ExpectedKeyword` picks. */
  lemma AddFiltersTracks(o: SearchOptions)
    ensures Tracks(AddFilters(o), Criteria(o))
  {
    var b0 := Start();
    assert Tracks(b0, []);
    var c1 := [] + CityCriteria(o.city);
    var b1 := AddCity(b0, o.city);
    AddCityTracks(b0, [], o.city);
    var c2 := c1 + OwnerCriteria(o.ownerId);
    var b2 := AddOwner(b1, o.ownerId);
    AddOwnerTracks(b1, c1, o.ownerId);
    var c3 := c2 + MinimumCriteria(o.minimumPricePerNight);
    var b3 := AddMinimumPrice(b2, o.minimumPricePerNight);
    AddMinimumPriceTracks(b2, c2, o.minimumPricePerNight);
    AddMaximumPriceTracks(b3, c3, o.maximumPricePerNight);
    assert Criteria(o) == c3 + MaximumCriteria(o.maximumPricePerNight);
  }

  /** The whole output for the filters `cs` with keywords `kws`: the
      SELECT, one filter clause per filter (placeholder `$i+1` bound to the
      i-th parameter), the grouping, with HAVING exactly when a minimum
      rating is present, and the limit, bound to the last parameter. */
  predicate FollowsCriteria(b: Builder, cs: seq<Criterion>, kws: seq<Keyword>, rating: Option<int>, limit: int)
    requires |kws| == |cs|
  {
    var k := |cs|;
    && |b.clauses| == k + 3
    && |b.params| == k + (if TruthyNumber(rating) then 1 else 0) + 1
    && b.clauses[0] == Select
    && (forall i :: 0 <= i < k ==>
          b.params[i] == cs[i].value && b.clauses[i + 1] == Filter(kws[i], cs[i].condition, i + 1))
    && (TruthyNumber(rating) ==> b.params[k] == Number(rating.value) && b.clauses[k + 1] == GroupByHaving(k + 1))
    && (!TruthyNumber(rating) ==> b.clauses[k + 1] == GroupBy)
    && b.params[|b.params| - 1] == Number(limit)
    && b.clauses[k + 2] == OrderByLimit(|b.params|)
  }

  /** Grouping and limit complete any filter part to the whole output. */
  lemma FinishFollows(f: Builder, cs: seq<Criterion>, kws: seq<Keyword>, rating: Option<int>, limit: int)
    requires |kws| == |cs|
    requires f.clauses == [Select] + FilterClauses(cs, kws) && f.params == Values(cs)
    ensures FollowsCriteria(AddLimit(AddGrouping(f, rating), limit), cs, kws, rating, limit)
  {
    var g := AddGrouping(f, rating);
    var b := AddLimit(g, limit);
    assert b.clauses[..|cs| + 1] == f.clauses;
    assert b.params[..|cs|] == f.params;
  }

  /** The builder produces exactly the output `Criteria` and
      `ExpectedKeyword` describe. */
  lemma BuildFollowsCriteria(o: SearchOptions, limit: int)
    ensures FollowsCriteria(Build(o, limit), Criteria(o), ExpectedKeywords(Criteria(o)), o.minimumRating, limit)
  {
    AddFiltersTracks(o);
    FinishFollows(AddFilters(o), Criteria(o), ExpectedKeywords(Criteria(o)), o.minimumRating, limit);
  }
}
