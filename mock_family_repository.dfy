/**
  `MockFamilyRepository`, the unit tests' in-memory family repository: a dictionary
  from id to family with upsert, delete, lookup and a case-insensitive keyword
  search over name and category.
 */
module MockRepository {
  import opened Wrappers
  import opened Text
  import opened Sequences
  import opened Family
  import opened Store

  /** The keyword test of `SearchFamiliesAsync`: a null keyword counts as "". */
  function MatchesKeyword(keyword: Option<string>): FamilyMetadata -> bool {
    (f: FamilyMetadata) => ContainsIgnoreCase(f.name, keyword.GetOr("")) || ContainsIgnoreCase(f.category, keyword.GetOr(""))
  }

  /** A null or empty keyword matches every family. */
  lemma EmptyKeywordMatchesAll(keyword: Option<string>, f: FamilyMetadata)
    requires keyword.None? || keyword.value == ""
    ensures MatchesKeyword(keyword)(f)
  {
    assert Fold("") == "";
  }

  /** The keyword test holds exactly when the name or the category contains the keyword, ignoring case. */
  lemma MatchesKeywordMeaning(keyword: string, f: FamilyMetadata)
    ensures MatchesKeyword(Some(keyword))(f) <==>
      (exists i :: OccursAt(Fold(f.name), Fold(keyword), i)) || (exists i :: OccursAt(Fold(f.category), Fold(keyword), i))
  {
    ContainsAt(Fold(f.name), Fold(keyword));
    ContainsAt(Fold(f.category), Fold(keyword));
  }

  class MockFamilyRepository {
    var store: Families

    ghost predicate Valid()
      reads this
    {
      WellKeyed(store)
    }

    constructor()
      ensures Valid() && store == map[]
    {
      store := map[];
    }

    /** `GetAllFamiliesAsync`: every stored family once. */
    method GetAllFamilies() returns (r: seq<FamilyMetadata>)
      requires Valid()
      ensures IsEnumeration(r, store)
    {
      r := Enumerate(store);
    }

    /** `GetFamilyByIdAsync`: the family stored under the id, or null; never throws. */
    method GetFamilyById(familyId: string) returns (r: Option<FamilyMetadata>)
      requires Valid()
      ensures r.Some? <==> familyId in store
      ensures r.Some? ==> r.value == store[familyId] && r.value.id == familyId
    {
      r := Lookup(store, familyId);
    }

    /**
      `SearchFamiliesAsync`: the families whose name or category contains the keyword
      (ordinal, ignoring case), at most `maxResults` of them.
     */
    method SearchFamilies(keyword: Option<string>, maxResults: int := 20) returns (r: seq<FamilyMetadata>)
      requires Valid()
      ensures IsBoundedSelection(r, store, MatchesKeyword(keyword), maxResults)
    {
      var all := Enumerate(store);
      r := FilterTake(all, MatchesKeyword(keyword), maxResults);
      SelectFromEnumeration(all, store, MatchesKeyword(keyword), maxResults);
    }

    /** `SaveOrUpdateFamilyAsync`: null is refused and changes nothing; otherwise upsert by id. */
    method SaveOrUpdateFamily(metadata: Option<FamilyMetadata>) returns (o: Outcome<RepositoryError>)
      requires Valid()
      modifies this
      ensures Valid()
      ensures metadata.None? ==> o == Fail(ArgumentNull) && store == old(store)
      ensures metadata.Some? ==> o == Pass && store == Upsert(old(store), metadata.value)
    {
      if metadata.None? {
        return Fail(ArgumentNull);
      }
      store := Upsert(store, metadata.value);
      o := Pass;
    }

    /** `DeleteFamilyAsync`: removes the id if present; never fails. */
    method DeleteFamily(familyId: string)
      requires Valid()
      modifies this
      ensures Valid()
      ensures store == Remove(old(store), familyId)
    {
      store := Remove(store, familyId);
    }
  }
}
