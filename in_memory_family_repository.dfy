/**
  The family-library integration tests' repositories and search service:
  `InMemoryFamilyRepository`, its subclass that fails every save, the role-checking
  `SecureFamilyRepository`, and `SimpleFamilySearchService` over a repository.
  A subclass is modelled as a class holding the base repository it extends (`inner`):
  the members it overrides are its own methods, the inherited ones are `inner`'s.
 */
module FamilyLibrary {
  import opened Wrappers
  import opened Text
  import opened Sequences
  import opened Family
  import opened Store
  import MockSearch

  /** The repository keyword test: the name contains the keyword, ordinal and case-sensitive. */
  function NameContains(keyword: string): FamilyMetadata -> bool {
    (f: FamilyMetadata) => Contains(f.name, keyword)
  }

  class InMemoryFamilyRepository {
    var store: Families

    ghost predicate Valid()
      reads this
    {
      WellKeyed(store)
    }

    constructor()
      ensures Valid() && store == map[]
    {
      store := map[];
    }

    /** `GetAllFamiliesAsync`: every stored family once. */
    method GetAllFamilies() returns (r: seq<FamilyMetadata>)
      requires Valid()
      ensures IsEnumeration(r, store)
    {
      r := Enumerate(store);
    }

    /** `GetFamilyByIdAsync`: the family stored under the id, or null. */
    method GetFamilyById(familyId: string) returns (r: Option<FamilyMetadata>)
      requires Valid()
      ensures r.Some? <==> familyId in store
      ensures r.Some? ==> r.value == store[familyId] && r.value.id == familyId
    {
      r := Lookup(store, familyId);
    }

    /** `SearchFamiliesAsync`: families whose name contains the keyword (case-sensitive), at most `maxResults`. */
    method SearchFamilies(keyword: string, maxResults: int := 20) returns (r: seq<FamilyMetadata>)
      requires Valid()
      ensures IsBoundedSelection(r, store, NameContains(keyword), maxResults)
    {
      var all := Enumerate(store);
      r := FilterTake(all, NameContains(keyword), maxResults);
      SelectFromEnumeration(all, store, NameContains(keyword), maxResults);
    }

    /** `SaveOrUpdateFamilyAsync`: upsert by id. */
    method SaveOrUpdateFamily(metadata: FamilyMetadata)
      requires Valid()
      modifies this
      ensures Valid()
      ensures store == Upsert(old(store), metadata)
    {
      store := Upsert(store, metadata);
    }

    /** `DeleteFamilyAsync`: removes the id if present. */
    method DeleteFamily(familyId: string)
      requires Valid()
      modifies this
      ensures Valid()
      ensures store == Remove(old(store), familyId)
    {
      store := Remove(store, familyId);
    }
  }

  /** An empty keyword matches every family, so the search returns min(count, maxResults) of them. */
  lemma EmptyKeywordMatchesAll(store: Families)
    ensures MatchIds(store, NameContains("")) == store.Keys
  {
    forall k | k in store ensures NameContains("")(store[k]) {
      EmptyIsContained(store[k].name);
    }
  }

  /** The error message of the failing save. */
  const SaveFailureMessage := "模拟保存失败"

  /** `InMemoryFamilyRepositoryWithExceptionOnSave`: every save throws and writes nothing. */
  class InMemoryFamilyRepositoryWithExceptionOnSave {
    const inner: InMemoryFamilyRepository

    constructor()
      ensures fresh(inner) && inner.Valid() && inner.store == map[]
    {
      inner := new InMemoryFamilyRepository();
    }

    /** The override of `SaveOrUpdateFamilyAsync`: throws `InvalidOperationException` and changes nothing. */
    method SaveOrUpdateFamily(metadata: FamilyMetadata) returns (o: Outcome<RepositoryError>)
      ensures o == Fail(InvalidOperation(SaveFailureMessage))
    {
      o := Fail(InvalidOperation(SaveFailureMessage));
    }
  }

  const ReadOnlyWriteMessage := "只读用户不能写入"
  const ReadOnlyDeleteMessage := "只读用户不能删除"
  const OthersWriteMessage := "普通用户不能修改他人数据"
  const OthersDeleteMessage := "普通用户不能删除他人数据"

  /** The role check of `SecureFamilyRepository.SaveOrUpdateFamilyAsync`, as written: only the incoming entity's owner is consulted. */
  function SaveCheck(role: UserRole, userId: string, metadata: FamilyMetadata): Outcome<RepositoryError> {
    if role == ReadOnly then Fail(Unauthorized(ReadOnlyWriteMessage))
    else if role == User && metadata.createdBy != Some(userId) then Fail(Unauthorized(OthersWriteMessage))
    else Pass
  }

  /** The role check of `SecureFamilyRepository.DeleteFamilyAsync`: a user may not delete a stored family owned by someone else. */
  function DeleteCheck(role: UserRole, userId: string, store: Families, familyId: string): Outcome<RepositoryError> {
    if role == ReadOnly then Fail(Unauthorized(ReadOnlyDeleteMessage))
    else if role == User && familyId in store && store[familyId].createdBy != Some(userId) then Fail(Unauthorized(OthersDeleteMessage))
    else Pass
  }

  /** A read-only caller can neither save nor delete anything. */
  lemma ReadOnlyRejectsAll(userId: string, store: Families, metadata: FamilyMetadata, familyId: string)
    ensures SaveCheck(ReadOnly, userId, metadata).Fail?
    ensures DeleteCheck(ReadOnly, userId, store, familyId).Fail?
  {
  }

  /** An administrator passes every check. */
  lemma AdminPassesAll(userId: string, store: Families, metadata: FamilyMetadata, familyId: string)
    ensures SaveCheck(Admin, userId, metadata) == Pass
    ensures DeleteCheck(Admin, userId, store, familyId) == Pass
  {
  }

  /**
    A user's save is refused exactly when the incoming family is not marked as
    created by that user; a delete exactly when a stored family with that id is
    owned by someone else (deleting an absent id is allowed).
   */
  lemma UserChecks(userId: string, store: Families, metadata: FamilyMetadata, familyId: string)
    ensures SaveCheck(User, userId, metadata).Fail? <==> metadata.createdBy != Some(userId)
    ensures DeleteCheck(User, userId, store, familyId).Fail? <==>
      (familyId in store && store[familyId].createdBy != Some(userId))
  {
  }

  /**
    As written, a user can overwrite a family that another user created: the save
    check never looks at the stored owner.
   */
  lemma UserOverwritesOthers()
    ensures
      var theirs := FamilyMetadata("SEC002", "安全族2", "结构", Some(["安全"]), Some([]), Some("desc"), None, Some("userB"), Timestamp(0));
      var mine := theirs.(name := "安全族2-改", createdBy := Some("userA"));
      var store := map["SEC002" := theirs];
      SaveCheck(User, "userA", mine) == Pass
      && Upsert(store, mine)["SEC002"].createdBy == Some("userA")
  {
  }

  /** The intended save check: a user may also not replace a stored family that someone else owns. */
  function OwnedSaveCheck(role: UserRole, userId: string, store: Families, metadata: FamilyMetadata): (o: Outcome<RepositoryError>)
    ensures o == Pass ==> SaveCheck(role, userId, metadata) == Pass
  {
    if role == User && metadata.id in store && store[metadata.id].createdBy != Some(userId) then Fail(Unauthorized(OthersWriteMessage))
    else SaveCheck(role, userId, metadata)
  }

  /**
    Under the intended check, a save that a user is allowed to make leaves every
    family owned by someone else exactly as it was, and only ever stores that
    user's own families.
   */
  lemma OwnedSaveProtectsOthers(userId: string, store: Families, metadata: FamilyMetadata)
    requires OwnedSaveCheck(User, userId, store, metadata) == Pass
    ensures forall k :: k in store && store[k].createdBy != Some(userId) ==> Upsert(store, metadata)[k] == store[k]
    ensures Upsert(store, metadata)[metadata.id].createdBy == Some(userId)
  {
  }

  /** Every stored family is marked as created by `userId`. */
  predicate OwnedBy(store: Families, userId: string) {
    forall k :: k in store ==> store[k].createdBy == Some(userId)
  }

  /**
    In a store holding only the user's own families the written save check and the
    intended one agree, and a user's delete is never refused: the stored-owner
    refusals can only fire on a store that was changed other than through the
    user's own saves.
   */
  lemma OwnedStoreChecksAgree(userId: string, store: Families, metadata: FamilyMetadata, familyId: string)
    requires OwnedBy(store, userId)
    ensures OwnedSaveCheck(User, userId, store, metadata) == SaveCheck(User, userId, metadata)
    ensures DeleteCheck(User, userId, store, familyId) == Pass
  {
  }

  /** `SecureFamilyRepository`: the in-memory repository with role checks on save and delete. */
  class SecureFamilyRepository {
    const inner: InMemoryFamilyRepository
    const role: UserRole
    const userId: string

    /**
      The base store is keyed by id and, for a user, holds only that user's own
      families: the only way in is the checked save (`_store` is private).
     */
    ghost predicate Valid()
      reads this, inner
    {
      inner.Valid() && (role == User ==> OwnedBy(inner.store, userId))
    }

    constructor(role: UserRole, userId: string := "user1")
      ensures this.role == role && this.userId == userId
      ensures fresh(inner) && inner.store == map[]
      ensures Valid()
    {
      this.role := role;
      this.userId := userId;
      inner := new InMemoryFamilyRepository();
    }

    /** The override of `SaveOrUpdateFamilyAsync`: checks the role, then saves through the base repository. */
    method SaveOrUpdateFamily(metadata: FamilyMetadata) returns (o: Outcome<RepositoryError>)
      requires Valid()
      modifies inner
      ensures Valid()
      ensures o == SaveCheck(role, userId, metadata)
      ensures inner.store == if o.Pass? then Upsert(old(inner.store), metadata) else old(inner.store)
    {
      if role == ReadOnly {
        return Fail(Unauthorized(ReadOnlyWriteMessage));
      }
      if role == User && metadata.createdBy != Some(userId) {
        return Fail(Unauthorized(OthersWriteMessage));
      }
      inner.SaveOrUpdateFamily(metadata);
      o := Pass;
    }

    /** The override of `DeleteFamilyAsync`: checks the role and the stored owner, then deletes through the base repository. */
    method DeleteFamily(familyId: string) returns (o: Outcome<RepositoryError>)
      requires Valid()
      modifies inner
      ensures Valid()
      ensures o == DeleteCheck(role, userId, old(inner.store), familyId)
      ensures inner.store == if o.Pass? then Remove(old(inner.store), familyId) else old(inner.store)
    {
      if role == ReadOnly {
        return Fail(Unauthorized(ReadOnlyDeleteMessage));
      }
      if role == User {
        var fam := inner.GetFamilyById(familyId);
        if fam.Some? && fam.value.createdBy != Some(userId) {
          return Fail(Unauthorized(OthersDeleteMessage));
        }
      }
      inner.DeleteFamily(familyId);
      o := Pass;
    }
  }

  /** The tag test of `SimpleFamilySearchService`: `f.Tags.Intersect(tags).Any()`, ordinal; a null side throws. */
  function TagsIntersect(tags: Option<seq<string>>): FamilyMetadata -> Option<bool> {
    (f: FamilyMetadata) =>
      if f.tags.None? || tags.None? then None
      else Some(exists t :: t in f.tags.value && t in tags.value)
  }

  /** `SimpleFamilySearchService` over an in-memory repository. */
  class SimpleFamilySearchService {
    const repo: InMemoryFamilyRepository

    constructor(repo: InMemoryFamilyRepository)
      ensures this.repo == repo
    {
      this.repo := repo;
    }

    /** `SearchByNaturalLanguageAsync`: the repository's keyword search. */
    method SearchByNaturalLanguage(query: string, maxResults: int := 20) returns (r: seq<FamilyMetadata>)
      requires repo.Valid()
      ensures IsBoundedSelection(r, repo.store, NameContains(query), maxResults)
    {
      r := repo.SearchFamilies(query, maxResults);
    }

    /**
      `SearchByTagsAsync`: the families sharing a tag with the query (ordinal), at most
      `maxResults`. The `Where` is lazy, so it throws only if it reaches a family
      without tags (or the query is null) before `maxResults` families are found.
     */
    method SearchByTags(tags: Option<seq<string>>, maxResults: int := 20) returns (r: Result<seq<FamilyMetadata>, RepositoryError>)
      requires repo.Valid()
      ensures r.Ok? ==> IsBoundedSelection(r.value, repo.store, HoldsWithoutThrow(TagsIntersect(tags)), maxResults)
      ensures r.Err? ==> r.error == ArgumentNull && (tags.None? || exists k :: k in repo.store && repo.store[k].tags.None?)
      ensures tags.Some? && (forall k :: k in repo.store ==> repo.store[k].tags.Some?) ==> r.Ok?
    {
      var all := repo.GetAllFamilies();
      var found := FilterTakeLazy(all, TagsIntersect(tags), maxResults);
      if tags.Some? && forall k :: k in repo.store ==> repo.store[k].tags.Some? {
        FilterTakeLazyTotal(all, TagsIntersect(tags), maxResults);
      }
      if found.None? {
        FilterTakeLazyThrows(all, TagsIntersect(tags), maxResults);
        ghost var f :| f in all && TagsIntersect(tags)(f).None?;
        assert f.id in repo.store;
        return Err(ArgumentNull);
      }
      FilterTakeLazyValue(all, TagsIntersect(tags), maxResults);
      SelectFromEnumeration(all, repo.store, HoldsWithoutThrow(TagsIntersect(tags)), maxResults);
      r := Ok(found.value);
    }

    /**
      `SearchByCriteriaAsync`, as written: only the name keyword is tested (a null
      keyword counts as ""); every other criterion is ignored.
     */
    method SearchByCriteria(criteria: FamilySearchCriteria, maxResults: int := 20) returns (r: seq<FamilyMetadata>)
      requires repo.Valid()
      ensures IsBoundedSelection(r, repo.store, NameContains(criteria.nameKeyword.GetOr("")), maxResults)
    {
      var all := repo.GetAllFamilies();
      r := FilterTake(all, NameContains(criteria.nameKeyword.GetOr("")), maxResults);
      SelectFromEnumeration(all, repo.store, NameContains(criteria.nameKeyword.GetOr("")), maxResults);
    }

    /** The intended criteria search: every criterion that is set must hold. */
    method SearchByAllCriteria(criteria: FamilySearchCriteria, maxResults: int := 20) returns (r: seq<FamilyMetadata>)
      requires repo.Valid()
      ensures IsBoundedSelection(r, repo.store, MockSearch.MatchesCriteria(criteria), maxResults)
    {
      var all := repo.GetAllFamilies();
      r := FilterTake(all, MockSearch.MatchesCriteria(criteria), maxResults);
      SelectFromEnumeration(all, repo.store, MockSearch.MatchesCriteria(criteria), maxResults);
    }
  }

  /**
    As written, the criteria search keeps a family whose category differs from the
    Category criterion: only the name keyword is tested.
   */
  lemma CriteriaIgnoredExample()
    ensures
      var door := FamilyMetadata("F002", "门", "建筑", Some(["入口"]), Some([]), None, None, None, Timestamp(0));
      var criteria := FamilySearchCriteria(Some("门"), Some("结构"), None, None, None);
      NameContains(criteria.nameKeyword.GetOr(""))(door)
      && !MockSearch.MatchesCriteria(criteria)(door)
  {
    var door := FamilyMetadata("F002", "门", "建筑", Some(["入口"]), Some([]), None, None, None, Timestamp(0));
    var criteria := FamilySearchCriteria(Some("门"), Some("结构"), None, None, None);
    assert door.name[..1] == "门";
    assert Contains(door.name, "门");
    assert Fold("建筑") != Fold("结构") by {
      assert Fold("建筑")[0] == '建' && Fold("结构")[0] == '结';
    }
    assert !MockSearch.CategoryCriterion(criteria)(door);
  }
}
