/** PowerDNS key inventories: lookups, role checks and the closed-inventory validators
    that guard every key mutation. Each validator is a function; the loops of the
    source are the methods proved equal to them. */
module Inventory {
  import opened Model

  datatype Scheme = SplitScheme | CskScheme | UnknownScheme

  function ById(keys: seq<Key>, id: int): (r: Option<Key>)
    ensures r.Some? ==> r.value in keys && r.value.id == id
    ensures r.None? ==> forall k <- keys :: k.id != id
  {
    if keys == [] then None
    else if keys[0].id == id then Some(keys[0])
    else ById(keys[1..], id)
  }

  method FindById(keys: seq<Key>, id: int) returns (r: Option<Key>)
    ensures r == ById(keys, id)
  {
    for i := 0 to |keys|
      invariant ById(keys, id) == ById(keys[i..], id)
    {
      if keys[i].id == id {
        return Some(keys[i]);
      }
    }
    return None;
  }

  /** The active keys PowerDNS labels with `typ`, in listing order. */
  function ActiveOf(keys: seq<Key>, typ: KeyType): (r: seq<Key>)
    ensures forall k :: k in r <==> k in keys && k.active && k.keyType == typ
  {
    if keys == [] then []
    else if keys[0].active && keys[0].keyType == typ then [keys[0]] + ActiveOf(keys[1..], typ)
    else ActiveOf(keys[1..], typ)
  }

  lemma ActiveOfAppend(a: seq<Key>, k: Key, typ: KeyType)
    ensures ActiveOf(a + [k], typ)
         == ActiveOf(a, typ) + (if k.active && k.keyType == typ then [k] else [])
  {
    if a != [] {
      assert (a + [k])[1..] == a[1..] + [k];
      ActiveOfAppend(a[1..], k, typ);
    }
  }

  function ExactlyOneActive(keys: seq<Key>, typ: KeyType): Option<Key> {
    var a := ActiveOf(keys, typ);
    if |a| == 1 then Some(a[0]) else None
  }

  method FindExactlyOneActive(keys: seq<Key>, typ: KeyType) returns (r: Option<Key>)
    ensures r == ExactlyOneActive(keys, typ)
  {
    var a := [];
    for i := 0 to |keys|
      invariant a == ActiveOf(keys[..i], typ)
    {
      ActiveOfAppend(keys[..i], keys[i], typ);
      assert keys[..i + 1] == keys[..i] + [keys[i]];
      if keys[i].keyType == typ && keys[i].active {
        a := a + [keys[i]];
      }
    }
    assert keys[..|keys|] == keys;
    return if |a| == 1 then Some(a[0]) else None;
  }

  function KeyScheme(keys: seq<Key>): Scheme {
    var ksk, zsk, csk := |ActiveOf(keys, KskType)|, |ActiveOf(keys, ZskType)|, |ActiveOf(keys, CskType)|;
    if ksk == 1 && zsk == 1 && csk == 0 then SplitScheme
    else if csk == 1 && ksk == 0 && zsk == 0 then CskScheme
    else UnknownScheme
  }

  /** The counting loop of the source. */
  method CountScheme(keys: seq<Key>) returns (r: Scheme)
    ensures r == KeyScheme(keys)
  {
    var a: map<KeyType, int> := map[KskType := 0, ZskType := 0, CskType := 0];
    for i := 0 to |keys|
      invariant a.Keys == {KskType, ZskType, CskType}
      invariant forall t <- a.Keys :: a[t] == |ActiveOf(keys[..i], t)|
    {
      assert keys[..i + 1] == keys[..i] + [keys[i]];
      forall t: KeyType {
        ActiveOfAppend(keys[..i], keys[i], t);
      }
      if keys[i].active {
        a := a[keys[i].keyType := a[keys[i].keyType] + 1];
      }
    }
    assert keys[..|keys|] == keys;
    if a[KskType] == 1 && a[ZskType] == 1 && a[CskType] == 0 {
      return SplitScheme;
    }
    if a[CskType] == 1 && a[KskType] == 0 && a[ZskType] == 0 {
      return CskScheme;
    }
    return UnknownScheme;
  }

  function PublishedKeys(keys: seq<Key>): (r: seq<Key>)
    ensures forall k :: k in r <==> k in keys && k.published
  {
    if keys == [] then []
    else if keys[0].published then [keys[0]] + PublishedKeys(keys[1..])
    else PublishedKeys(keys[1..])
  }

  function Ids(keys: seq<Key>): set<int> { set k <- keys :: k.id }

  function PublishedIds(keys: seq<Key>): set<int> { Ids(PublishedKeys(keys)) }

  /** DNSKEY flags decide the role. A `csk` label passes for a KSK or ZSK only where a
      split migration allows PowerDNS's transitional label. */
  function ValidRole(k: Key, want: KeyType, transitional: bool): Option<KeyData> {
    var flags := if want.ZskType? then ZONE_FLAGS else SEP_FLAGS;
    if k.data.Some? && k.data.value.protocol == 3 && k.data.value.flags == flags
       && (k.keyType == want || (transitional && k.keyType.CskType? && !want.CskType?))
    then k.data
    else None
  }

  predicate LabelMatches(cfg: Config, name: string, algorithm: int) {
    name in cfg.algorithms && cfg.algorithms[name] == algorithm
  }

  /** No active or published key outside `allowed`. */
  predicate Closed(keys: seq<Key>, allowed: set<int>) {
    forall k <- keys :: k.active || k.published ==> k.id in allowed
  }

  function RoleOf(kind: Kind): KeyType {
    if kind.ZSK? then ZskType else KskType
  }

  function Companion(kind: Kind): KeyType {
    if kind.KSK? then ZskType else KskType
  }

  predicate DistinctSplitIds(w: Workflow) {
    w.oldKey != 0 && w.newKey != 0 && w.newZsk != 0
    && w.oldKey != w.newKey && w.oldKey != w.newZsk && w.newKey != w.newZsk
  }

  /** The inventory while the replacement is published but has not taken over. */
  predicate PrepublishInventory(keys: seq<Key>, w: Workflow) {
    var outgoing, incoming := ById(keys, w.oldKey), ById(keys, w.newKey);
    && w.oldKey != 0 && w.newKey != 0 && w.oldKey != w.newKey
    && (w.kind.Split? ==> DistinctSplitIds(w))
    && outgoing.Some? && incoming.Some?
    && var oldData := ValidRole(outgoing.value, if w.kind.Split? then CskType else RoleOf(w.kind), false);
       var newData := ValidRole(incoming.value, RoleOf(w.kind), w.kind.Split?);
    && oldData.Some? && newData.Some?
    && outgoing.value.active && outgoing.value.published
    && newData.value.algorithm == oldData.value.algorithm
    && incoming.value.active == (w.kind.KSK? || w.kind.Split?) && incoming.value.published
    && if w.kind.Split? then
         var zsk := ById(keys, w.newZsk);
         && zsk.Some?
         && var zskData := ValidRole(zsk.value, ZskType, true);
         && zskData.Some? && zskData.value.algorithm == oldData.value.algorithm
         && !zsk.value.active && zsk.value.published
         && Closed(keys, {w.oldKey, w.newKey, w.newZsk})
       else
         var companion := ExactlyOneActive(keys, Companion(w.kind));
         && companion.Some? && companion.value.published
         && Closed(keys, {w.oldKey, w.newKey, companion.value.id})
  }

  /** The inventory of a split migration once the new ZSK signs: with the old key still
      active, or already deactivated but published. */
  predicate SplitInventory(keys: seq<Key>, w: Workflow, oldActive: bool) {
    var outgoing, ksk, zsk := ById(keys, w.oldKey), ById(keys, w.newKey), ById(keys, w.newZsk);
    && w.kind.Split? && DistinctSplitIds(w)
    && outgoing.Some? && ksk.Some? && zsk.Some?
    && var oldData := ValidRole(outgoing.value, KskType, true);
       var kskData := ValidRole(ksk.value, KskType, true);
       var zskData := ValidRole(zsk.value, ZskType, true);
    && oldData.Some? && kskData.Some? && zskData.Some?
    && oldData.value.algorithm == kskData.value.algorithm == zskData.value.algorithm
    && outgoing.value.active == oldActive && outgoing.value.published
    && ksk.value.active && ksk.value.published
    && zsk.value.active && zsk.value.published
    && Closed(keys, {w.oldKey, w.newKey, w.newZsk})
  }

  method CheckClosed(keys: seq<Key>, allowed: set<int>) returns (ok: bool)
    ensures ok == Closed(keys, allowed)
  {
    for i := 0 to |keys|
      invariant Closed(keys[..i], allowed)
    {
      if (keys[i].active || keys[i].published) && keys[i].id !in allowed {
        assert keys[i] in keys;
        return false;
      }
    }
    assert keys[..|keys|] == keys;
    return true;
  }

  /** The checks in the order of the source; the first that fails decides. */
  method CheckPrepublish(keys: seq<Key>, w: Workflow) returns (ok: bool)
    ensures ok == PrepublishInventory(keys, w)
  {
    if w.oldKey == 0 || w.newKey == 0 || w.oldKey == w.newKey || (w.kind.Split? && !DistinctSplitIds(w)) {
      return false;
    }
    var outgoing := FindById(keys, w.oldKey);
    var incoming := FindById(keys, w.newKey);
    if outgoing.None? || incoming.None? {
      return false;
    }
    var oldData := ValidRole(outgoing.value, if w.kind.Split? then CskType else RoleOf(w.kind), false);
    if oldData.None? || !outgoing.value.active || !outgoing.value.published {
      return false;
    }
    var newData := ValidRole(incoming.value, RoleOf(w.kind), w.kind.Split?);
    if newData.None? || newData.value.algorithm != oldData.value.algorithm
       || incoming.value.active != (w.kind.KSK? || w.kind.Split?) || !incoming.value.published {
      return false;
    }
    var allowed := {outgoing.value.id, incoming.value.id};
    if w.kind.Split? {
      var zsk := FindById(keys, w.newZsk);
      if zsk.None? {
        return false;
      }
      var zskData := ValidRole(zsk.value, ZskType, true);
      if zskData.None? || zskData.value.algorithm != oldData.value.algorithm || zsk.value.active || !zsk.value.published {
        return false;
      }
      allowed := allowed + {zsk.value.id};
      assert allowed == {w.oldKey, w.newKey, w.newZsk};
    } else {
      var companion := FindExactlyOneActive(keys, Companion(w.kind));
      if companion.None? || !companion.value.published {
        return false;
      }
      allowed := allowed + {companion.value.id};
      assert allowed == {w.oldKey, w.newKey, companion.value.id};
    }
    ok := CheckClosed(keys, allowed);
  }

  method CheckSplit(keys: seq<Key>, w: Workflow, oldActive: bool) returns (ok: bool)
    ensures ok == SplitInventory(keys, w, oldActive)
  {
    if !w.kind.Split? || !DistinctSplitIds(w) {
      return false;
    }
    var outgoing := FindById(keys, w.oldKey);
    var ksk := FindById(keys, w.newKey);
    var zsk := FindById(keys, w.newZsk);
    if outgoing.None? || ksk.None? || zsk.None? {
      return false;
    }
    var oldData := ValidRole(outgoing.value, KskType, true);
    var kskData := ValidRole(ksk.value, KskType, true);
    var zskData := ValidRole(zsk.value, ZskType, true);
    if oldData.None? || kskData.None? || zskData.None?
       || oldData.value.algorithm != kskData.value.algorithm || oldData.value.algorithm != zskData.value.algorithm {
      return false;
    }
    if outgoing.value.active != oldActive || !outgoing.value.published || !ksk.value.active || !ksk.value.published
       || !zsk.value.active || !zsk.value.published {
      return false;
    }
    var allowed := {outgoing.value.id, ksk.value.id, zsk.value.id};
    assert allowed == {w.oldKey, w.newKey, w.newZsk};
    ok := CheckClosed(keys, allowed);
  }

  method CollectPublished(keys: seq<Key>) returns (r: seq<Key>)
    ensures r == PublishedKeys(keys)
  {
    r := [];
    for i := 0 to |keys|
      invariant PublishedKeys(keys) == r + PublishedKeys(keys[i..])
    {
      assert keys[i..][1..] == keys[i + 1..];
      if keys[i].published {
        r := r + [keys[i]];
      }
    }
  }

  predicate DistinctIds(keys: seq<Key>) {
    forall i, j | 0 <= i < j < |keys| :: keys[i].id != keys[j].id
  }

  /** The keys whose exact publication must be seen before an old ZSK or KSK is deleted:
      replacement, companion and, while it still exists, the inactive old key. */
  function RetirementInventory(keys: seq<Key>, w: Workflow): Option<seq<Key>> {
    var incoming, outgoing := ById(keys, w.newKey), ById(keys, w.oldKey);
    var companion := ExactlyOneActive(keys, Companion(w.kind));
    if w.oldKey <= 0 || w.newKey <= 0 || w.oldKey == w.newKey then None
    else if incoming.None? || !incoming.value.active || !incoming.value.published then None
    else
      var newData := ValidRole(incoming.value, RoleOf(w.kind), false);
      if newData.None? then None
      else if companion.None? || !companion.value.published
              || companion.value.id == w.oldKey || companion.value.id == w.newKey then None
      else if ValidRole(companion.value, Companion(w.kind), false).None? then None
      else if outgoing.Some? && !RetiredOld(outgoing.value, w, newData.value) then None
      else
        var expected := [incoming.value, companion.value] + (if outgoing.Some? then [outgoing.value] else []);
        if DistinctIds(keys) && Closed(keys, Ids(expected)) then Some(expected) else None
  }

  predicate RetiredOld(outgoing: Key, w: Workflow, newData: KeyData) {
    var oldData := ValidRole(outgoing, RoleOf(w.kind), false);
    oldData.Some? && !outgoing.active && outgoing.published && oldData.value.algorithm == newData.algorithm
  }

  method CollectRetirement(keys: seq<Key>, w: Workflow) returns (r: Option<seq<Key>>)
    ensures r == RetirementInventory(keys, w)
  {
    if w.oldKey <= 0 || w.newKey <= 0 || w.oldKey == w.newKey {
      return None;
    }
    var replacement := FindById(keys, w.newKey);
    if replacement.None? || !replacement.value.active || !replacement.value.published {
      return None;
    }
    var data := ValidRole(replacement.value, RoleOf(w.kind), false);
    if data.None? {
      return None;
    }
    var companion := FindExactlyOneActive(keys, Companion(w.kind));
    if companion.None? || !companion.value.published
       || companion.value.id == w.oldKey || companion.value.id == w.newKey {
      return None;
    }
    if ValidRole(companion.value, Companion(w.kind), false).None? {
      return None;
    }
    var expected := [replacement.value, companion.value];
    var allowed := {replacement.value.id, companion.value.id};
    var outgoing := FindById(keys, w.oldKey);
    if outgoing.Some? {
      if !RetiredOld(outgoing.value, w, data.value) {
        return None;
      }
      expected := expected + [outgoing.value];
      allowed := allowed + {outgoing.value.id};
    }
    assert expected == [replacement.value, companion.value] + (if outgoing.Some? then [outgoing.value] else []);
    assert allowed == Ids(expected);
    var ok := CheckDistinctClosed(keys, allowed);
    return if ok then Some(expected) else None;
  }

  /** The source's loop over `seen` and `allowed`. */
  method CheckDistinctClosed(keys: seq<Key>, allowed: set<int>) returns (ok: bool)
    ensures ok == (DistinctIds(keys) && Closed(keys, allowed))
  {
    var seen := {};
    for i := 0 to |keys|
      invariant seen == set j | 0 <= j < i :: keys[j].id
      invariant DistinctIds(keys[..i]) && Closed(keys[..i], allowed)
    {
      if keys[i].id in seen || ((keys[i].active || keys[i].published) && keys[i].id !in allowed) {
        assert keys[i] in keys;
        assert keys[i].id in seen ==> exists j :: 0 <= j < i && keys[j].id == keys[i].id;
        return false;
      }
      assert keys[..i + 1] == keys[..i] + [keys[i]];
      seen := seen + {keys[i].id};
    }
    assert keys[..|keys|] == keys;
    return true;
  }

  /** The split inventory an automatic enrollment accepts, with its fingerprint. */
  function EnrollmentInventory(cfg: Config, keys: seq<Key>, kskId: int, zskId: int, keyset: Fingerprint)
    : Option<(Key, Key, Fingerprint)>
  {
    var live := LiveKeys(keys);
    var ksk, zsk := ActiveOf(live, KskType), ActiveOf(live, ZskType);
    if exists k <- live :: !k.active || !k.published || k.keyType.CskType? then None
    else if |ksk| != 1 || |zsk| != 1 || ksk[0].id == zsk[0].id then None
    else if (kskId != 0 && ksk[0].id != kskId) || (zskId != 0 && zsk[0].id != zskId) then None
    else
      var kdata, zdata := ValidRole(ksk[0], KskType, false), ValidRole(zsk[0], ZskType, false);
      if kdata.None? || zdata.None? || kdata.value.algorithm != zdata.value.algorithm then None
      else if !LabelMatches(cfg, ksk[0].algorithm, kdata.value.algorithm)
              || !LabelMatches(cfg, zsk[0].algorithm, zdata.value.algorithm) then None
      else if ksk[0].algorithm !in cfg.allowed then None
      else
        var found := Keyset(ksk[0].id, kdata.value, zsk[0].id, zdata.value);
        if keyset != NoFingerprint && keyset != found then None
        else Some((ksk[0], zsk[0], found))
  }

  /** The keys that are active or published. */
  function LiveKeys(keys: seq<Key>): (r: seq<Key>)
    ensures forall k :: k in r <==> k in keys && (k.active || k.published)
  {
    if keys == [] then []
    else if keys[0].active || keys[0].published then [keys[0]] + LiveKeys(keys[1..])
    else LiveKeys(keys[1..])
  }

  /** The source's single pass, which fails at the first key that does not fit. */
  method SortEnrollmentKeys(keys: seq<Key>) returns (ok: bool, ksk: seq<Key>, zsk: seq<Key>)
    ensures ok == forall k <- LiveKeys(keys) :: k.active && k.published && !k.keyType.CskType?
    ensures ok ==> ksk == ActiveOf(LiveKeys(keys), KskType) && zsk == ActiveOf(LiveKeys(keys), ZskType)
  {
    ksk, zsk := [], [];
    for i := 0 to |keys|
      invariant forall k <- LiveKeys(keys[..i]) :: k.active && k.published && !k.keyType.CskType?
      invariant ksk == ActiveOf(LiveKeys(keys[..i]), KskType)
      invariant zsk == ActiveOf(LiveKeys(keys[..i]), ZskType)
    {
      var key := keys[i];
      assert keys[..i + 1] == keys[..i] + [key];
      LiveKeysAppend(keys[..i], key);
      assert LiveKeys(keys[..i]) + [] == LiveKeys(keys[..i]);
      if key.active || key.published {
        assert key in LiveKeys(keys);
        if !key.active || !key.published || key.keyType.CskType? {
          return false, ksk, zsk;
        }
        ActiveOfAppend(LiveKeys(keys[..i]), key, KskType);
        ActiveOfAppend(LiveKeys(keys[..i]), key, ZskType);
        if key.keyType.KskType? {
          ksk := ksk + [key];
        } else {
          zsk := zsk + [key];
        }
      }
    }
    assert keys[..|keys|] == keys;
    ok := true;
  }

  lemma LiveKeysAppend(a: seq<Key>, k: Key)
    ensures LiveKeys(a + [k]) == LiveKeys(a) + (if k.active || k.published then [k] else [])
  {
    if a != [] {
      assert (a + [k])[1..] == a[1..] + [k];
      LiveKeysAppend(a[1..], k);
    }
  }

  method CheckEnrollment(cfg: Config, keys: seq<Key>, kskId: int, zskId: int, keyset: Fingerprint)
    returns (r: Option<(Key, Key, Fingerprint)>)
    ensures r == EnrollmentInventory(cfg, keys, kskId, zskId, keyset)
  {
    var clean, ksk, zsk := SortEnrollmentKeys(keys);
    if !clean || |ksk| != 1 || |zsk| != 1 || ksk[0].id == zsk[0].id {
      return None;
    }
    if (kskId != 0 && ksk[0].id != kskId) || (zskId != 0 && zsk[0].id != zskId) {
      return None;
    }
    var kdata := ValidRole(ksk[0], KskType, false);
    var zdata := ValidRole(zsk[0], ZskType, false);
    if kdata.None? || zdata.None? || kdata.value.algorithm != zdata.value.algorithm
       || !LabelMatches(cfg, ksk[0].algorithm, kdata.value.algorithm)
       || !LabelMatches(cfg, zsk[0].algorithm, zdata.value.algorithm)
       || ksk[0].algorithm !in cfg.allowed {
      return None;
    }
    var found := Keyset(ksk[0].id, kdata.value, zsk[0].id, zdata.value);
    return if keyset != NoFingerprint && keyset != found then None else Some((ksk[0], zsk[0], found));
  }
}
