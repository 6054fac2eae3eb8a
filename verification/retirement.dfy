/** Retiring an old ZSK or KSK: the validated inventory is exactly what is published, and
    without the old key the zone is a split zone again. */
module Retirement {
  import opened Model
  import opened Inventory

  predicate NoDuplicates<T(==)>(s: seq<T>) { forall i, j | 0 <= i < j < |s| :: s[i] != s[j] }

  lemma {:induction false} CountOne<T>(s: seq<T>, x: T)
    requires NoDuplicates(s)
    ensures multiset(s)[x] == if x in s then 1 else 0
  {
    if s != [] {
      var rest := s[1..];
      assert s == [s[0]] + rest;
      assert forall i, j | 0 <= i < j < |rest| :: rest[i] == s[i + 1] && rest[j] == s[j + 1];
      CountOne(rest, x);
      if x == s[0] {
        assert forall i | 0 <= i < |rest| :: rest[i] == s[i + 1] != x;
      }
    }
  }

  /** Sequences without duplicates and with the same elements are permutations. */
  lemma SameElements<T>(a: seq<T>, b: seq<T>)
    requires NoDuplicates(a) && NoDuplicates(b) && forall x :: x in a <==> x in b
    ensures multiset(a) == multiset(b)
  {
    forall x
      ensures multiset(a)[x] == multiset(b)[x]
    {
      CountOne(a, x);
      CountOne(b, x);
    }
  }

  lemma {:induction false} PublishedDistinct(keys: seq<Key>)
    requires DistinctIds(keys)
    ensures DistinctIds(PublishedKeys(keys)) && NoDuplicates(PublishedKeys(keys))
  {
    if keys != [] {
      var rest := keys[1..];
      assert forall i, j | 0 <= i < j < |rest| :: rest[i].id == keys[i + 1].id && rest[j].id == keys[j + 1].id;
      PublishedDistinct(rest);
      var p := PublishedKeys(rest);
      forall j | 0 <= j < |p|
        ensures p[j].id != keys[0].id
      {
        assert p[j] in rest;
      }
    }
  }

  /** With distinct ids a key is determined by its id. */
  lemma SameKey(keys: seq<Key>, a: Key, b: Key)
    requires DistinctIds(keys) && a in keys && b in keys && a.id == b.id
    ensures a == b
  {}

  /** The retirement inventory is, key for key, what the zone publishes. */
  lemma RetirementIsPublished(keys: seq<Key>, w: Workflow)
    requires RetirementInventory(keys, w).Some?
    ensures multiset(RetirementInventory(keys, w).value) == multiset(PublishedKeys(keys))
  {
    var r := RetirementInventory(keys, w).value;
    var companion := ExactlyOneActive(keys, Companion(w.kind)).value;
    assert companion in ActiveOf(keys, Companion(w.kind));
    PublishedDistinct(keys);
    assert NoDuplicates(r);
    forall k
      ensures k in r <==> k in PublishedKeys(keys)
    {
      if k in PublishedKeys(keys) {
        assert k.id in Ids(r);
        var x :| x in r && x.id == k.id;
        SameKey(keys, x, k);
      }
    }
    SameElements(r, PublishedKeys(keys));
  }

  // ---- the scheme afterwards -------------------------------------------------------------

  function Without(keys: seq<Key>, id: int): seq<Key> {
    if keys == [] then []
    else if keys[0].id == id then Without(keys[1..], id)
    else [keys[0]] + Without(keys[1..], id)
  }

  lemma {:induction false} ActiveWithout(keys: seq<Key>, id: int, typ: KeyType)
    requires forall k <- keys :: k.id == id ==> !k.active
    ensures ActiveOf(Without(keys, id), typ) == ActiveOf(keys, typ)
  {
    if keys != [] {
      assert keys[0] in keys;
      ActiveWithout(keys[1..], id, typ);
    }
  }

  /** The only active key of its type, listed once, is all there is of it. */
  lemma {:induction false} OnlyOne(keys: seq<Key>, k: Key, typ: KeyType)
    requires DistinctIds(keys) && k in keys && k.active && k.keyType == typ
    requires forall x <- keys :: x.active && x.keyType == typ ==> x == k
    ensures ActiveOf(keys, typ) == [k]
  {
    var rest := keys[1..];
    assert forall i, j | 0 <= i < j < |rest| :: rest[i].id == keys[i + 1].id && rest[j].id == keys[j + 1].id;
    if k in rest {
      assert keys[0] != k by {
        var i :| 0 <= i < |rest| && rest[i] == k;
        assert rest[i] == keys[i + 1];
      }
      assert keys[0] in keys;
      OnlyOne(rest, k, typ);
    } else {
      assert keys[0] == k;
      forall x <- rest
        ensures !(x.active && x.keyType == typ)
      {
        assert x in keys;
      }
      NoneOf(rest, typ);
    }
  }

  lemma {:induction false} NoneOf(keys: seq<Key>, typ: KeyType)
    requires forall x <- keys :: !(x.active && x.keyType == typ)
    ensures ActiveOf(keys, typ) == []
  {
    if keys != [] {
      assert keys[0] in keys;
      NoneOf(keys[1..], typ);
    }
  }

  /** Before and after the recorded old key is gone, exactly one KSK and one ZSK are active. */
  lemma RetirementLeavesSplit(keys: seq<Key>, w: Workflow)
    requires RetirementInventory(keys, w).Some? && (w.kind.ZSK? || w.kind.KSK?)
    ensures KeyScheme(keys).SplitScheme? && KeyScheme(Without(keys, w.oldKey)).SplitScheme?
  {
    var r := RetirementInventory(keys, w).value;
    var incoming, companion := r[0], r[1];
    assert companion in ActiveOf(keys, Companion(w.kind));
    forall x | x in keys && x.active
      ensures x == incoming || x == companion
    {
      assert x.id in Ids(r);
      var y :| y in r && y.id == x.id;
      SameKey(keys, x, y);
    }
    OnlyOne(keys, incoming, RoleOf(w.kind));
    OnlyOne(keys, companion, Companion(w.kind));
    NoneOf(keys, CskType);
    forall k | k in keys && k.id == w.oldKey
      ensures !k.active
    {}
    forall typ: KeyType {
      ActiveWithout(keys, w.oldKey, typ);
    }
  }
}
