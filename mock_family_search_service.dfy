/**
  `MockFamilySearchService`, the unit tests' search service over a fixed list of
  families: natural-language, tag and multi-criteria search, each a `Where`
  (or a chain of them) followed by `Take(maxResults)`.
 */
module MockSearch {
  import opened Wrappers
  import opened Text
  import opened Sequences
  import opened Family

  /** Some string of `a` equals some string of `b`, ignoring case (`Overlaps` / `Intersect(..).Any()` with `OrdinalIgnoreCase`). */
  predicate OverlapsIgnoreCase(a: seq<string>, b: seq<string>) {
    exists x, y :: x in a && y in b && EqualsIgnoreCase(x, y)
  }

  /** The natural-language test: name, category or some tag contains the query (null counts as ""). */
  function MatchesQuery(query: Option<string>): FamilyMetadata -> bool {
    (f: FamilyMetadata) =>
      ContainsIgnoreCase(f.name, query.GetOr(""))
      || ContainsIgnoreCase(f.category, query.GetOr(""))
      || (f.tags.Some? && exists t :: t in f.tags.value && ContainsIgnoreCase(t, query.GetOr("")))
  }

  /** The tag test: the family has tags and they overlap the query set (a null set is empty). */
  function MatchesTags(tags: Option<seq<string>>): FamilyMetadata -> bool {
    (f: FamilyMetadata) => f.tags.Some? && OverlapsIgnoreCase(tags.GetOr([]), f.tags.value)
  }

  /** The NameKeyword criterion: off when null or empty, else a substring test ignoring case. */
  function NameCriterion(c: FamilySearchCriteria): FamilyMetadata -> bool {
    (f: FamilyMetadata) => IsNullOrEmpty(c.nameKeyword) || ContainsIgnoreCase(f.name, c.nameKeyword.value)
  }

  /** The Category criterion: off when null or empty, else whole-string equality ignoring case. */
  function CategoryCriterion(c: FamilySearchCriteria): FamilyMetadata -> bool {
    (f: FamilyMetadata) => IsNullOrEmpty(c.category) || EqualsIgnoreCase(f.category, c.category.value)
  }

  /** The Tags criterion: off when null or empty, else the family's tags overlap it ignoring case. */
  function TagsCriterion(c: FamilySearchCriteria): FamilyMetadata -> bool {
    (f: FamilyMetadata) => c.tags.None? || c.tags.value == [] || (f.tags.Some? && OverlapsIgnoreCase(c.tags.value, f.tags.value))
  }

  /** The ParameterName criterion: off when null or empty, else an (ordinal) `ContainsKey`. */
  function ParameterNameCriterion(c: FamilySearchCriteria): FamilyMetadata -> bool {
    (f: FamilyMetadata) => IsNullOrEmpty(c.parameterName) || HasKey(f.parameters.GetOr([]), c.parameterName.value)
  }

  /** Some parameter's default value, rendered by `ToString()`, equals `value` exactly. */
  predicate HasDefaultValueText(ps: Parameters, value: string) {
    exists i :: 0 <= i < |ps| && ps[i].1.defaultValue.Some? && Render(ps[i].1.defaultValue.value) == value
  }

  /** The ParameterValue criterion: off when null or empty, else some default value renders as it. */
  function ParameterValueCriterion(c: FamilySearchCriteria): FamilyMetadata -> bool {
    (f: FamilyMetadata) => IsNullOrEmpty(c.parameterValue) || (f.parameters.Some? && HasDefaultValueText(f.parameters.value, c.parameterValue.value))
  }

  /** All criteria together: the conjunction of the five criteria. */
  function MatchesCriteria(c: FamilySearchCriteria): FamilyMetadata -> bool {
    (f: FamilyMetadata) =>
      NameCriterion(c)(f) && CategoryCriterion(c)(f) && TagsCriterion(c)(f)
      && ParameterNameCriterion(c)(f) && ParameterValueCriterion(c)(f)
  }

  /** `SearchByCriteriaAsync`'s chain of conditional `Where`s, before `Take`. */
  function CriteriaChain(s: seq<FamilyMetadata>, c: FamilySearchCriteria): seq<FamilyMetadata> {
    var r1 := if !IsNullOrEmpty(c.nameKeyword) then Filter(s, NameCriterion(c)) else s;
    var r2 := if !IsNullOrEmpty(c.category) then Filter(r1, CategoryCriterion(c)) else r1;
    var r3 := if c.tags.Some? && c.tags.value != [] then Filter(r2, TagsCriterion(c)) else r2;
    var r4 := if !IsNullOrEmpty(c.parameterName) then Filter(r3, ParameterNameCriterion(c)) else r3;
    if !IsNullOrEmpty(c.parameterValue) then Filter(r4, ParameterValueCriterion(c)) else r4
  }

  /** A `Where` that is skipped is the same as a `Where` whose predicate always holds. */
  lemma SkippedFilter(s: seq<FamilyMetadata>, applied: bool, p: FamilyMetadata -> bool)
    requires !applied ==> forall x :: p(x)
    ensures (if applied then Filter(s, p) else s) == Filter(s, p)
  {
    if !applied { FilterKeepsAll(s, p); }
  }

  /**
    The chain of conditional `Where`s keeps exactly the families that satisfy every
    criterion: criteria that are null or empty impose nothing.
   */
  lemma CriteriaChainIsConjunction(s: seq<FamilyMetadata>, c: FamilySearchCriteria)
    ensures CriteriaChain(s, c) == Filter(s, MatchesCriteria(c))
  {
    var p1, p2, p3, p4, p5 := NameCriterion(c), CategoryCriterion(c), TagsCriterion(c),
      ParameterNameCriterion(c), ParameterValueCriterion(c);
    var p12 := (f: FamilyMetadata) => p1(f) && p2(f);
    var p123 := (f: FamilyMetadata) => p12(f) && p3(f);
    var p1234 := (f: FamilyMetadata) => p123(f) && p4(f);
    SkippedFilter(s, !IsNullOrEmpty(c.nameKeyword), p1);
    var r1 := Filter(s, p1);
    SkippedFilter(r1, !IsNullOrEmpty(c.category), p2);
    FilterFilter(s, p1, p2, p12);
    var r2 := Filter(s, p12);
    SkippedFilter(r2, c.tags.Some? && c.tags.value != [], p3);
    FilterFilter(s, p12, p3, p123);
    var r3 := Filter(s, p123);
    SkippedFilter(r3, !IsNullOrEmpty(c.parameterName), p4);
    FilterFilter(s, p123, p4, p1234);
    var r4 := Filter(s, p1234);
    SkippedFilter(r4, !IsNullOrEmpty(c.parameterValue), p5);
    FilterFilter(s, p1234, p5, MatchesCriteria(c));
  }

  /** The search service over the list it copied when it was constructed; the copy is never changed. */
  datatype MockFamilySearchService = MockFamilySearchService(families: seq<FamilyMetadata>) {

    /**
      `SearchByNaturalLanguageAsync`: the families whose name, category or some tag
      contains the query ignoring case, in list order, at most `maxResults` of them.
     */
    function SearchByNaturalLanguage(query: Option<string>, maxResults: int := 20): (r: seq<FamilyMetadata>)
      ensures Subseq(r, families)
      ensures forall i :: 0 <= i < |r| ==> MatchesQuery(query)(r[i])
      ensures |r| == Min(Max(maxResults, 0), |Filter(families, MatchesQuery(query))|)
      ensures r == Filter(families, MatchesQuery(query))[..|r|]
      ensures |r| < maxResults ==> forall f :: f in families && MatchesQuery(query)(f) ==> f in r
    {
      FilterTake(families, MatchesQuery(query), maxResults)
    }

    /**
      `SearchByTagsAsync`: the families that have tags overlapping the query set
      ignoring case, in list order, at most `maxResults` of them.
     */
    function SearchByTags(tags: Option<seq<string>>, maxResults: int := 20): (r: seq<FamilyMetadata>)
      ensures Subseq(r, families)
      ensures forall i :: 0 <= i < |r| ==> r[i].tags.Some? && OverlapsIgnoreCase(tags.GetOr([]), r[i].tags.value)
      ensures |r| == Min(Max(maxResults, 0), |Filter(families, MatchesTags(tags))|)
      ensures r == Filter(families, MatchesTags(tags))[..|r|]
      ensures |r| < maxResults ==> forall f :: f in families && MatchesTags(tags)(f) ==> f in r
    {
      FilterTake(families, MatchesTags(tags), maxResults)
    }

    /**
      `SearchByCriteriaAsync`: the families meeting every criterion that is set, in
      list order, at most `maxResults` of them.
     */
    function SearchByCriteria(criteria: FamilySearchCriteria, maxResults: int := 20): (r: seq<FamilyMetadata>)
      ensures Subseq(r, families)
      ensures forall i :: 0 <= i < |r| ==> MatchesCriteria(criteria)(r[i])
      ensures |r| == Min(Max(maxResults, 0), |Filter(families, MatchesCriteria(criteria))|)
      ensures r == Filter(families, MatchesCriteria(criteria))[..|r|]
      ensures |r| < maxResults ==> forall f :: f in families && MatchesCriteria(criteria)(f) ==> f in r
    {
      CriteriaChainIsConjunction(families, criteria);
      assert Take(CriteriaChain(families, criteria), maxResults) == FilterTake(families, MatchesCriteria(criteria), maxResults);
      Take(CriteriaChain(families, criteria), maxResults)
    }
  }

  /** A null or empty query keeps every family (up to `maxResults`). */
  lemma EmptyQueryKeepsAll(svc: MockFamilySearchService, query: Option<string>, maxResults: int)
    requires IsNullOrEmpty(query)
    ensures svc.SearchByNaturalLanguage(query, maxResults) == Take(svc.families, maxResults)
  {
    assert Fold("") == "";
    FilterKeepsAll(svc.families, MatchesQuery(query));
  }

  /** An empty (or null) tag set finds nothing. */
  lemma EmptyTagsFindNothing(svc: MockFamilySearchService, tags: Option<seq<string>>, maxResults: int)
    requires tags.None? || tags.value == []
    ensures svc.SearchByTags(tags, maxResults) == []
  {
    FilterKeepsNone(svc.families, MatchesTags(tags));
  }

  /** Criteria that are all null or empty impose nothing; in particular an empty Tags criterion, unlike an empty tag search. */
  lemma EmptyCriteriaKeepAll(svc: MockFamilySearchService, c: FamilySearchCriteria, maxResults: int)
    requires IsNullOrEmpty(c.nameKeyword) && IsNullOrEmpty(c.category) && IsNullOrEmpty(c.parameterName)
    requires IsNullOrEmpty(c.parameterValue) && (c.tags.None? || c.tags.value == [])
    ensures svc.SearchByCriteria(c, maxResults) == Take(svc.families, maxResults)
  {
    forall f | f in svc.families ensures MatchesCriteria(c)(f) {
      assert NameCriterion(c)(f) && CategoryCriterion(c)(f) && TagsCriterion(c)(f);
      assert ParameterNameCriterion(c)(f) && ParameterValueCriterion(c)(f);
    }
    FilterKeepsAll(svc.families, MatchesCriteria(c));
  }

  /**
    A family passes the criteria exactly when each criterion that is set holds:
    the name contains the keyword and the category equals the category (both
    ignoring case), the tags overlap, the parameter name is a key, and some
    default value renders as the parameter value.
   */
  lemma MatchesCriteriaMeaning(c: FamilySearchCriteria, f: FamilyMetadata)
    ensures MatchesCriteria(c)(f) <==>
      (c.nameKeyword.Some? && c.nameKeyword.value != "" ==> ContainsIgnoreCase(f.name, c.nameKeyword.value))
      && (c.category.Some? && c.category.value != "" ==> Fold(f.category) == Fold(c.category.value))
      && (c.tags.Some? && c.tags.value != [] ==> f.tags.Some? && OverlapsIgnoreCase(c.tags.value, f.tags.value))
      && (c.parameterName.Some? && c.parameterName.value != "" ==>
            exists i :: 0 <= i < |f.parameters.GetOr([])| && f.parameters.GetOr([])[i].0 == c.parameterName.value)
      && (c.parameterValue.Some? && c.parameterValue.value != "" ==>
            f.parameters.Some? && HasDefaultValueText(f.parameters.value, c.parameterValue.value))
  {
    assert NameCriterion(c)(f) <==> (c.nameKeyword.Some? && c.nameKeyword.value != "" ==> ContainsIgnoreCase(f.name, c.nameKeyword.value));
    assert CategoryCriterion(c)(f) <==> (c.category.Some? && c.category.value != "" ==> Fold(f.category) == Fold(c.category.value));
    assert ParameterNameCriterion(c)(f) <==> (c.parameterName.Some? && c.parameterName.value != "" ==> HasKey(f.parameters.GetOr([]), c.parameterName.value));
  }
}
