/**
  The `Dictionary<string, FamilyMetadata>` every repository keeps, as a map from id
  to entity: upsert by id, remove, lookup, enumeration of its values in an
  unspecified order, and `Values.Where(p).Take(n)` over such an enumeration.
 */
module Store {
  import opened Wrappers
  import opened Sequences
  import opened Family

  type Families = map<string, FamilyMetadata>

  /** Every entity is stored under its own id, as `_store[metadata.Id] = metadata` keeps it. */
  predicate WellKeyed(store: Families) {
    forall k :: k in store ==> store[k].id == k
  }

  /** `_store[metadata.Id] = metadata`: insert, or replace the whole entity stored under that id. */
  function Upsert(store: Families, f: FamilyMetadata): (r: Families)
    ensures r.Keys == store.Keys + {f.id}
    ensures r[f.id] == f
    ensures forall k :: k in store && k != f.id ==> r[k] == store[k]
    ensures WellKeyed(store) ==> WellKeyed(r)
  {
    store[f.id := f]
  }

  /** `_store.Remove(familyId)`: no effect when the id is absent. */
  function Remove(store: Families, id: string): (r: Families)
    ensures r.Keys == store.Keys - {id}
    ensures forall k :: k in r ==> r[k] == store[k]
    ensures WellKeyed(store) ==> WellKeyed(r)
  {
    store - {id}
  }

  /** `_store.TryGetValue(familyId, out var v) ? v : null`. */
  function Lookup(store: Families, id: string): (r: Option<FamilyMetadata>)
    ensures r.Some? <==> id in store
    ensures r.Some? ==> r.value == store[id]
  {
    if id in store then Some(store[id]) else None
  }

  /** After a save, looking the id up yields exactly the saved entity. */
  lemma SaveThenGet(store: Families, f: FamilyMetadata)
    ensures Lookup(Upsert(store, f), f.id) == Some(f)
  {
  }

  /** A save replaces the stored entity wholesale: nothing of the old one survives. */
  lemma SaveReplaces(store: Families, old_: FamilyMetadata, f: FamilyMetadata)
    requires old_.id == f.id
    ensures Lookup(Upsert(Upsert(store, old_), f), f.id) == Some(f)
    ensures Upsert(Upsert(store, old_), f) == Upsert(store, f)
  {
  }

  /** Saving the same entity again changes nothing. */
  lemma SaveIdempotent(store: Families, f: FamilyMetadata)
    ensures Upsert(Upsert(store, f), f) == Upsert(store, f)
  {
  }

  /** After a delete the id is absent; deleting again, or deleting an absent id, changes nothing. */
  lemma DeleteThenGet(store: Families, id: string)
    ensures Lookup(Remove(store, id), id) == None
    ensures Remove(Remove(store, id), id) == Remove(store, id)
    ensures id !in store ==> Remove(store, id) == store
  {
  }

  /** A sequence of saves, one after another. */
  function SaveAll(store: Families, fs: seq<FamilyMetadata>): (r: Families)
    decreases |fs|
  {
    if fs == [] then store else SaveAll(Upsert(store, fs[0]), fs[1..])
  }

  /** The ids of a sequence of entities. */
  function Ids(s: seq<FamilyMetadata>): set<string> {
    set i | 0 <= i < |s| :: s[i].id
  }

  predicate DistinctIds(s: seq<FamilyMetadata>) {
    forall i, j :: 0 <= i < j < |s| ==> s[i].id != s[j].id
  }

  lemma IdsAppend(s: seq<FamilyMetadata>, x: FamilyMetadata)
    ensures Ids(s + [x]) == Ids(s) + {x.id}
  {
    forall y | y in Ids(s) ensures y in Ids(s + [x]) {
      var i :| 0 <= i < |s| && s[i].id == y;
      assert (s + [x])[i].id == y;
    }
    assert (s + [x])[|s|].id == x.id;
  }

  lemma IdsTail(s: seq<FamilyMetadata>)
    requires s != []
    ensures Ids(s) == {s[0].id} + Ids(s[1..])
  {
    forall x | x in Ids(s) ensures x in {s[0].id} + Ids(s[1..]) {
      var i :| 0 <= i < |s| && s[i].id == x;
      if i > 0 { assert s[1..][i - 1].id == x; }
    }
    forall x | x in Ids(s[1..]) ensures x in Ids(s) {
      var i :| 0 <= i < |s[1..]| && s[1..][i].id == x;
      assert s[i + 1].id == x;
    }
    assert s[0].id in Ids(s);
  }

  /** Saving the first of distinct, new entities leaves the rest distinct and new. */
  lemma SaveFirstDistinct(store: Families, fs: seq<FamilyMetadata>)
    requires fs != [] && DistinctIds(fs)
    requires forall i :: 0 <= i < |fs| ==> fs[i].id !in store
    ensures |Upsert(store, fs[0])| == |store| + 1
    ensures DistinctIds(fs[1..])
    ensures forall i :: 0 <= i < |fs[1..]| ==> fs[1..][i].id !in Upsert(store, fs[0])
  {
    assert fs[0].id !in store;
    var tail := fs[1..];
    forall i | 0 <= i < |tail| ensures tail[i].id !in Upsert(store, fs[0]) {
      assert tail[i] == fs[i + 1];
    }
  }

  /** A sequence of saves stores exactly the saved ids besides the ones already there. */
  lemma {:induction false} SaveAllKeys(store: Families, fs: seq<FamilyMetadata>)
    ensures SaveAll(store, fs).Keys == store.Keys + Ids(fs)
    decreases |fs|
  {
    if fs != [] {
      SaveAllKeys(Upsert(store, fs[0]), fs[1..]);
      IdsTail(fs);
    }
  }

  /** Each save of a new id adds one entry. */
  lemma {:induction false} SaveAllSize(store: Families, fs: seq<FamilyMetadata>)
    requires DistinctIds(fs)
    requires forall i :: 0 <= i < |fs| ==> fs[i].id !in store
    ensures |SaveAll(store, fs)| == |store| + |fs|
    decreases |fs|
  {
    if fs != [] {
      SaveFirstDistinct(store, fs);
      SaveAllSize(Upsert(store, fs[0]), fs[1..]);
    }
  }

  /** Saving entities with distinct, new ids adds exactly one entry per entity. */
  lemma SaveAllDistinct(store: Families, fs: seq<FamilyMetadata>)
    requires DistinctIds(fs)
    requires forall i :: 0 <= i < |fs| ==> fs[i].id !in store
    ensures SaveAll(store, fs).Keys == store.Keys + Ids(fs)
    ensures |SaveAll(store, fs)| == |store| + |fs|
  {
    SaveAllKeys(store, fs);
    SaveAllSize(store, fs);
  }

  /** `s` lists every stored entity exactly once, in some order (`_store.Values`). */
  predicate IsEnumeration(s: seq<FamilyMetadata>, store: Families) {
    DistinctIds(s)
    && (forall i :: 0 <= i < |s| ==> s[i].id in store && store[s[i].id] == s[i])
    && Ids(s) == store.Keys
  }

  /**
    `_store.Values`: every stored entity once. The order of a dictionary's values
    is unspecified once entries have been removed, so any order is allowed.
   */
  method Enumerate(store: Families) returns (s: seq<FamilyMetadata>)
    requires WellKeyed(store)
    ensures IsEnumeration(s, store)
  {
    s := [];
    var rest := store.Keys;
    while rest != {}
      invariant rest <= store.Keys
      invariant DistinctIds(s)
      invariant forall i :: 0 <= i < |s| ==> s[i].id in store && store[s[i].id] == s[i]
      invariant Ids(s) == store.Keys - rest
      decreases rest
    {
      var k :| k in rest;
      assert k !in Ids(s);
      IdsAppend(s, store[k]);
      s := s + [store[k]];
      rest := rest - {k};
    }
  }

  /** The ids of the stored entities that satisfy `p`. */
  function MatchIds(store: Families, p: FamilyMetadata -> bool): set<string> {
    set k | k in store && p(store[k])
  }

  /**
    `r` is a result of `_store.Values.Where(p).Take(n)`: distinct stored entities that
    satisfy `p`, as many as there are matches but no more than `n`, and all matches
    when fewer than `n` were returned.
   */
  predicate IsBoundedSelection(r: seq<FamilyMetadata>, store: Families, p: FamilyMetadata -> bool, n: int) {
    DistinctIds(r)
    && (forall i :: 0 <= i < |r| ==> r[i].id in store && store[r[i].id] == r[i] && p(r[i]))
    && |r| == Min(Max(n, 0), |MatchIds(store, p)|)
    && (|r| < n ==> Ids(r) == MatchIds(store, p))
  }

  lemma {:induction false} FilterDistinct(s: seq<FamilyMetadata>, p: FamilyMetadata -> bool)
    requires DistinctIds(s)
    ensures DistinctIds(Filter(s, p))
    decreases |s|
  {
    if s != [] {
      FilterDistinct(s[1..], p);
      var t := Filter(s[1..], p);
      if p(s[0]) {
        forall j | 0 <= j < |t| ensures t[j].id != s[0].id {
          assert t[j] in s[1..];
          var i :| 0 <= i < |s[1..]| && s[1..][i] == t[j];
          assert s[i + 1] == t[j];
        }
      }
    }
  }

  /** A sequence with distinct ids has as many ids as elements. */
  lemma {:induction false} DistinctIdsCard(s: seq<FamilyMetadata>)
    requires DistinctIds(s)
    ensures |Ids(s)| == |s|
    decreases |s|
  {
    if s != [] {
      var last := |s| - 1;
      DistinctIdsCard(s[..last]);
      assert Ids(s) == Ids(s[..last]) + {s[last].id} by {
        forall x | x in Ids(s) ensures x in Ids(s[..last]) + {s[last].id} {
          var i :| 0 <= i < |s| && s[i].id == x;
          if i < last { assert s[..last][i].id == x; }
        }
      }
      assert s[last].id !in Ids(s[..last]);
    }
  }

  /** `Where(p).Take(n)` over an enumeration of the store is a bounded selection. */
  lemma SelectFromEnumeration(s: seq<FamilyMetadata>, store: Families, p: FamilyMetadata -> bool, n: int)
    requires IsEnumeration(s, store)
    ensures IsBoundedSelection(FilterTake(s, p, n), store, p, n)
  {
    var f := Filter(s, p);
    FilterDistinct(s, p);
    DistinctIdsCard(f);
    assert Ids(f) == MatchIds(store, p) by {
      forall x | x in Ids(f) ensures x in MatchIds(store, p) {
        var i :| 0 <= i < |f| && f[i].id == x;
        assert f[i] in s;
      }
      forall k | k in MatchIds(store, p) ensures k in Ids(f) {
        var i :| 0 <= i < |s| && s[i].id == k;
        assert s[i] in f;
      }
    }
    var r := FilterTake(s, p, n);
    assert r == f[..|r|];
    forall i | 0 <= i < |r| ensures r[i].id in store && store[r[i].id] == r[i] && p(r[i]) {
      assert r[i] in f;
      assert r[i] in s;
    }
  }
}
