/** `getAllProperties` with the owner filter repaired: every filter advances
    the counter and takes its keyword from it, so the first filter present
    opens with WHERE and every later one is joined with AND. Parameters,
    placeholder numbers and all other fragments are those of the original. */
module PropertySearchCorrected {
  import opened JsValues
  import opened SqlText
  import opened PropertySearch
  import opened PropertySearchFacts
  import opened QueryTextFacts

  /** One filter step, the same for all four filters. */
  function AddFilter(b: Builder, x: Criterion): Builder {
    var count := b.countOptions + 1;
    var params := b.params + [x.value];
    var keyword := if count > 1 then And else Where;
    Builder(b.clauses + [Filter(keyword, x.condition, |params|)], params, count)
  }

  function AddFilterList(b: Builder, cs: seq<Criterion>): Builder {
    if |cs| == 0 then b else AddFilter(AddFilterList(b, cs[..|cs| - 1]), cs[|cs| - 1])
  }

  function BuildCorrected(o: SearchOptions, limit: int): Builder {
    AddLimit(AddGrouping(AddFilterList(Start(), Criteria(o)), o.minimumRating), limit)
  }

  function GetAllPropertiesCorrected(options: SearchOptions, limit: int := 10): Query {
    var b := BuildCorrected(options, limit);
    Query(QueryText(b.clauses), b.params)
  }

  /** The keywords the repaired builder gives n filters: WHERE, then AND. */
  function CorrectedKeywords(n: nat): seq<Keyword> {
    seq(n, i requires 0 <= i < n => if i == 0 then Where else And)
  }

  /** After the filter steps: the first filter says WHERE, the others AND,
      each bound to its own parameter. */
  lemma {:induction false} CorrectedFilters(cs: seq<Criterion>)
    ensures var b := AddFilterList(Start(), cs);
            && b.clauses == [Select] + FilterClauses(cs, CorrectedKeywords(|cs|))
            && b.params == Values(cs)
            && b.countOptions == |cs|
  {
    if |cs| > 0 {
      var init := cs[..|cs| - 1];
      var x := cs[|cs| - 1];
      var k := if |init| == 0 then Where else And;
      CorrectedFilters(init);
      assert CorrectedKeywords(|cs|) == CorrectedKeywords(|init|) + [k];
      FilterClausesAppend(init, CorrectedKeywords(|init|), x, k);
      assert init + [x] == cs;
    }
  }

  /** One WHERE after the filter steps when any filter is present. */
  lemma {:induction false} CorrectedFiltersWhere(cs: seq<Criterion>)
    ensures CountWhere(AddFilterList(Start(), cs).clauses) == (if |cs| > 0 then 1 else 0)
  {
    if |cs| == 0 {
      assert Start().clauses == [] + [Select];
      CountWhereAppend([], Select);
    } else {
      var init := cs[..|cs| - 1];
      var b := AddFilterList(Start(), init);
      CorrectedFiltersWhere(init);
      CorrectedFilters(init);
      var b' := AddFilter(b, cs[|cs| - 1]);
      CountWhereAppend(b.clauses, b'.clauses[|b'.clauses| - 1]);
    }
  }

  lemma BuildCorrectedFollows(o: SearchOptions, limit: int)
    ensures var cs := Criteria(o);
            FollowsCriteria(BuildCorrected(o, limit), cs, CorrectedKeywords(|cs|), o.minimumRating, limit)
  {
    var cs := Criteria(o);
    CorrectedFilters(cs);
    FinishFollows(AddFilterList(Start(), cs), cs, CorrectedKeywords(|cs|), o.minimumRating, limit);
  }

  /** The repaired text holds `WHERE` once when any filter is present and
      never otherwise. */
  lemma CorrectedWhereCount(o: SearchOptions, limit: int)
    ensures Occurrences(GetAllPropertiesCorrected(o, limit).text, "WHERE")
            == (if TruthyNumber(o.ownerId) || AnyCounted(o) then 1 else 0)
  {
    var cs := Criteria(o);
    CorrectedFiltersWhere(cs);
    FinishKeepsWhere(AddFilterList(Start(), cs), o.minimumRating, limit);
    QueryWhereOccurrences(BuildCorrected(o, limit).clauses);
    assert |cs| > 0 <==> TruthyNumber(o.ownerId) || AnyCounted(o);
  }

  /** Two outputs of the same filters that differ at most in keywords. */
  lemma SameButKeywords(b: Builder, c: Builder, cs: seq<Criterion>, kb: seq<Keyword>, kc: seq<Keyword>,
                        rating: Option<int>, limit: int)
    requires |kb| == |cs| && |kc| == |cs|
    requires FollowsCriteria(b, cs, kb, rating, limit) && FollowsCriteria(c, cs, kc, rating, limit)
    ensures c.params == b.params
    ensures |c.clauses| == |b.clauses|
    ensures forall i :: 0 <= i < |b.clauses| && !b.clauses[i].Filter? ==> c.clauses[i] == b.clauses[i]
    ensures forall i :: 0 <= i < |b.clauses| && b.clauses[i].Filter? ==>
              1 <= i <= |cs| && c.clauses[i] == Filter(kc[i - 1], b.clauses[i].condition, b.clauses[i].ref)
    ensures c.clauses == b.clauses <==> kc == kb
  {
    var k := |cs|;
    forall i | 1 <= i <= k
      ensures b.clauses[i].Filter? && c.clauses[i] == Filter(kc[i - 1], cs[i - 1].condition, i)
    {
      var j := i - 1;
      assert b.clauses[j + 1] == Filter(kb[j], cs[j].condition, j + 1);
      assert c.clauses[j + 1] == Filter(kc[j], cs[j].condition, j + 1);
    }
    if kc != kb {
      var i :| 0 <= i < k && kc[i] != kb[i];
      assert c.clauses[i + 1] != b.clauses[i + 1];
    } else {
      assert forall i :: 0 <= i < |b.clauses| ==> c.clauses[i] == b.clauses[i];
    }
  }

  /** The repair changes keywords only: the same parameters, and clause for
      clause the same fragments, except that every filter after the first
      says AND. */
  lemma CorrectedChangesKeywordsOnly(o: SearchOptions, limit: int)
    ensures var b := Build(o, limit);
            var c := BuildCorrected(o, limit);
            && c.params == b.params
            && |c.clauses| == |b.clauses|
            && (forall i :: 0 <= i < |b.clauses| && !b.clauses[i].Filter? ==> c.clauses[i] == b.clauses[i])
            && (forall i :: 0 <= i < |b.clauses| && b.clauses[i].Filter? ==>
                  c.clauses[i] == Filter(if i == 1 then Where else And, b.clauses[i].condition, b.clauses[i].ref))
  {
    var cs := Criteria(o);
    BuildFollowsCriteria(o, limit);
    BuildCorrectedFollows(o, limit);
    SameButKeywords(Build(o, limit), BuildCorrected(o, limit), cs, ExpectedKeywords(cs), CorrectedKeywords(|cs|),
                    o.minimumRating, limit);
  }

  /** The counter's keywords are the repaired ones exactly when the owner
      filter does not meet a city or price filter. */
  lemma ExpectedKeywordsCorrectIff(o: SearchOptions)
    ensures ExpectedKeywords(Criteria(o)) == CorrectedKeywords(|Criteria(o)|)
            <==> !(TruthyNumber(o.ownerId) && AnyCounted(o))
  {
    var cs := Criteria(o);
    var kb := ExpectedKeywords(cs);
    var kc := CorrectedKeywords(|cs|);
    if TruthyNumber(o.ownerId) && AnyCounted(o) {
      // The second filter: WHERE from the counter, AND after the repair.
      assert |cs| >= 2;
      assert !Counted(cs[0].condition) || !IsPriceBound(cs[1].condition);
      assert kb[1] == Where && kc[1] == And;
    } else {
      forall i | 0 <= i < |cs|
        ensures kb[i] == kc[i]
      {
        if i > 0 {
          assert !TruthyNumber(o.ownerId);
          assert Counted(cs[0].condition) && IsPriceBound(cs[i].condition);
        }
      }
    }
  }

  /** The original and the repaired builder produce the same clauses
      exactly when the owner filter does not meet a city or price filter. */
  lemma CorrectedAgreesIff(o: SearchOptions, limit: int)
    ensures BuildCorrected(o, limit).clauses == Build(o, limit).clauses
            <==> !(TruthyNumber(o.ownerId) && AnyCounted(o))
  {
    var cs := Criteria(o);
    BuildFollowsCriteria(o, limit);
    BuildCorrectedFollows(o, limit);
    SameButKeywords(Build(o, limit), BuildCorrected(o, limit), cs, ExpectedKeywords(cs), CorrectedKeywords(|cs|),
                    o.minimumRating, limit);
    ExpectedKeywordsCorrectIff(o);
  }
}
