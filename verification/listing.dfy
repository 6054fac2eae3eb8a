/** What a truthful listing and a validated inventory say about the live keys, and what a
    key operation that PowerDNS carried out leaves true. */
module Listing {
  import opened Model
  import opened Inventory
  import opened Plans
  import opened World
  import opened Facts
  import opened Good

  lemma Listed(ks: seq<Key>, keys: map<int, Key>)
    requires Lists(ks, keys) && forall i <- keys :: keys[i].id == i
    ensures forall i :: ById(ks, i) == (if i in keys then Some(keys[i]) else None)
    ensures PublishedIds(ks) == Published(keys)
  {
    forall i | i in keys
      ensures ById(ks, i) == Some(keys[i])
    {
      assert keys[i] in ks;
    }
    assert PublishedIds(ks) == Published(keys) by {
      forall i | i in Published(keys)
        ensures i in PublishedIds(ks)
      {
        assert keys[i] in ks && keys[i] in PublishedKeys(ks);
      }
    }
  }

  lemma OneActive(ks: seq<Key>, keys: map<int, Key>, typ: KeyType)
    requires Lists(ks, keys) && forall i <- keys :: keys[i].id == i
    requires ExactlyOneActive(ks, typ).Some?
    ensures var p := ExactlyOneActive(ks, typ).value;
            p.id in Active(keys) && keys[p.id] == p && p.keyType == typ
  {
    assert ActiveOf(ks, typ)[0] in ks;
  }

  /** All active keys of a closed inventory are among the allowed ones. */
  lemma ClosedKeys(ks: seq<Key>, keys: map<int, Key>, allowed: set<int>)
    requires Lists(ks, keys) && Closed(ks, allowed) && forall i <- keys :: keys[i].id == i
    ensures Active(keys) <= allowed && Published(keys) <= allowed
  {
    forall i | i in Active(keys) || i in Published(keys)
      ensures i in allowed
    {
      assert keys[i] in ks;
    }
  }

  lemma Rekeying(e: Env, now: Time, keys: map<int, Key>, o: Outcome)
    requires EnvInv(e, now) && TryRekey(e, now, keys, o).Some?
    requires forall i <- keys :: keys[i].id == i && i > 0 && Labelled(keys[i])
    ensures var e2 := TryRekey(e, now, keys, o).value;
            && EnvInv(e2, now) && Follows(e, e2, now)
            && e2.keys == keys && e2.cur.pub == Published(keys)
            && e2.cur.ds == e.cur.ds && e2.remote == e.remote && e2.pending == e.pending
  {}

  /** Switching one key leaves everything published and every other key as it was. */
  lemma Switching(e: Env, now: Time, id: int, on: bool, o: Outcome)
    requires EnvInv(e, now) && SetCall(e, now, id, on, o).Some? && id in e.cur.pub
    ensures var e2 := SetCall(e, now, id, on, o).value;
            && EnvInv(e2, now) && Follows(e, e2, now)
            && e2.cur.pub == e.cur.pub && e2.keys.Keys == e.keys.Keys
            && (forall i, flags :: Has(e, i, flags) <==> Has(e2, i, flags))
            && Active(e2.keys) == (if on then Active(e.keys) + {id} else Active(e.keys) - {id})
            && e2.cur.ds == e.cur.ds && e2.remote == e.remote && e2.pending == e.pending
  {
    var keys := e.keys[id := e.keys[id].(active := on, published := true)];
    assert forall i <- keys :: Flag(keys[i]) == Flag(e.keys[i]);
    Rekeying(e, now, keys, o);
    assert Published(keys) == Published(e.keys);
  }

  lemma Deleting(e: Env, now: Time, id: int, o: Outcome)
    requires EnvInv(e, now) && DeleteCall(e, now, id, o).Some?
    ensures var e2 := DeleteCall(e, now, id, o).value;
            && EnvInv(e2, now) && Follows(e, e2, now)
            && e2.cur.pub == e.cur.pub - {id}
            && (forall i, flags :: i != id && Has(e, i, flags) ==> Has(e2, i, flags))
            && Active(e2.keys) == Active(e.keys) - {id}
            && e2.cur.ds == e.cur.ds && e2.remote == e.remote && e2.pending == e.pending
  {
    Rekeying(e, now, e.keys - {id}, o);
  }

  lemma Creating(e: Env, now: Time, role: KeyType, active: bool, o: Outcome)
    requires EnvInv(e, now) && CreateCall(e, now, role, active, o).Some?
    ensures var e2 := CreateCall(e, now, role, active, o).value;
            && EnvInv(e2, now) && Follows(e, e2, now)
            && e2.cur.pub == e.cur.pub + {o.key.id} && o.key.id !in e.keys
            && (forall i, flags :: Has(e, i, flags) ==> Has(e2, i, flags))
            && Has(e2, o.key.id, if role.ZskType? then ZONE_FLAGS else SEP_FLAGS)
            && Active(e2.keys) == (if active then Active(e.keys) + {o.key.id} else Active(e.keys))
            && e2.cur.ds == e.cur.ds && e2.remote == e.remote && e2.pending == e.pending
  {
    var keys := e.keys[o.key.id := o.key];
    assert forall i <- e.keys :: Flag(keys[i]) == Flag(e.keys[i]);
    Rekeying(e, now, keys, o);
  }

  /** Active zone-signing keys sign the zone, active key-signing keys the DNSKEY RRset. */
  lemma Signers(e: Env, now: Time)
    requires EnvInv(e, now)
    ensures forall i :: i in Active(e.keys) && Has(e, i, ZONE_FLAGS) ==> i in e.cur.zs
    ensures forall i :: i in Active(e.keys) && Has(e, i, SEP_FLAGS) ==> i in e.cur.ks
    ensures (forall i <- Active(e.keys) :: Has(e, i, SEP_FLAGS)) ==> e.cur.zs == Active(e.keys)
  {
    assert forall i :: i in Active(e.keys) && Has(e, i, ZONE_FLAGS) ==> i in ActiveWith(e.keys, ZONE_FLAGS);
    assert forall i :: i in Active(e.keys) && Has(e, i, SEP_FLAGS) ==> i in ActiveWith(e.keys, SEP_FLAGS);
    if forall i <- Active(e.keys) :: Has(e, i, SEP_FLAGS) {
      forall i
        ensures i !in ActiveWith(e.keys, ZONE_FLAGS)
      {
        assert i in Active(e.keys) ==> Has(e, i, SEP_FLAGS);
      }
    }
  }

  // ---- the scheme of a zone ----------------------------------------------------------------

  function LiveOf(keys: map<int, Key>, typ: KeyType): set<int> { set i <- keys | keys[i].active && keys[i].keyType == typ }

  lemma HeadElsewhere(ks: seq<Key>, typ: KeyType)
    requires DistinctIds(ks) && ks != []
    ensures ks[0].id !in Ids(ActiveOf(ks[1..], typ))
  {
    forall k | k in ActiveOf(ks[1..], typ)
      ensures k.id != ks[0].id
    {
      var i :| 0 <= i < |ks| - 1 && ks[1..][i] == k;
      assert ks[i + 1] == k;
    }
  }

  lemma PutInFront(k: Key, rest: seq<Key>)
    requires k.id !in Ids(rest)
    ensures |Ids([k] + rest)| == 1 + |Ids(rest)|
  {
    var all := [k] + rest;
    assert k in all && forall x <- rest :: x in all;
    forall x | x in all
      ensures x == k || x in rest
    {}
    forall i
      ensures i in Ids(all) <==> i == k.id || i in Ids(rest)
    {
      if i in Ids(rest) {
        var x :| x in rest && x.id == i;
        assert x in all;
      }
    }
    assert Ids(all) == {k.id} + Ids(rest);
  }

  lemma {:induction false} CountActive(ks: seq<Key>, typ: KeyType)
    requires DistinctIds(ks)
    ensures |ActiveOf(ks, typ)| == |Ids(ActiveOf(ks, typ))|
  {
    if ks != [] {
      CountActive(ks[1..], typ);
      HeadElsewhere(ks, typ);
      PutInFront(ks[0], ActiveOf(ks[1..], typ));
    }
  }

  lemma ListedCount(ks: seq<Key>, keys: map<int, Key>, typ: KeyType)
    requires Lists(ks, keys) && forall i <- keys :: keys[i].id == i
    ensures |ActiveOf(ks, typ)| == |LiveOf(keys, typ)|
  {
    CountActive(ks, typ);
    forall i
      ensures i in Ids(ActiveOf(ks, typ)) <==> i in LiveOf(keys, typ)
    {
      if i in LiveOf(keys, typ) {
        assert keys[i] in ActiveOf(ks, typ);
      }
    }
    assert Ids(ActiveOf(ks, typ)) == LiveOf(keys, typ);
  }

  /** All complete listings of the same keys show the same scheme. */
  lemma OneScheme(a: seq<Key>, b: seq<Key>, keys: map<int, Key>)
    requires Lists(a, keys) && Lists(b, keys) && forall i <- keys :: keys[i].id == i
    ensures KeyScheme(a) == KeyScheme(b)
  {
    forall typ: KeyType
      ensures |ActiveOf(a, typ)| == |ActiveOf(b, typ)|
    {
      ListedCount(a, keys, typ);
      ListedCount(b, keys, typ);
    }
  }
}
