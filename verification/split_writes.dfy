/** The two key writes of a split migration: three exact inventories that exclude each
    other, each write leading from one to the next, a replay recognised by what it finds. */
module SplitWrites {
  import opened Model
  import opened Inventory
  import opened Plans
  import opened World
  import opened Facts
  import opened Listing

  /** Fully prepublished, all active, old key deactivated: never two at once. */
  lemma InventoriesExclude(keys: seq<Key>, w: Workflow)
    requires w.kind.Split?
    ensures !(PrepublishInventory(keys, w) && SplitInventory(keys, w, true))
    ensures !(PrepublishInventory(keys, w) && SplitInventory(keys, w, false))
    ensures !(SplitInventory(keys, w, true) && SplitInventory(keys, w, false))
  {}

  /** Any listing of the keys, however PowerDNS labels them by then. */
  ghost predicate LiveListing(ks: seq<Key>, e: Env, now: Time) { EnvInv(e, now) && Lists(ks, e.keys) }

  /** The same keys under other labels. */
  predicate SameKeys(a: map<int, Key>, b: map<int, Key>) {
    a.Keys == b.Keys && forall i <- a :: b[i] == a[i].(keyType := b[i].keyType)
  }

  lemma RelabelledSame(e: Env, labels: map<int, KeyType>)
    ensures SameKeys(e.keys, Relabelled(e, labels).keys)
  {}

  predicate Alike(a: Option<KeyData>, b: Option<KeyData>) {
    a.Some? && b.Some? && a.value.algorithm == b.value.algorithm
  }

  /** The three recorded keys in their roles, all published, nothing else live; the new KSK
      active, the others as stated. */
  predicate Exact(keys: map<int, Key>, w: Workflow, oldActive: bool, zskActive: bool) {
    && DistinctSplitIds(w) && {w.oldKey, w.newKey, w.newZsk} <= keys.Keys
    && Alike(ValidRole(keys[w.oldKey], KskType, true), ValidRole(keys[w.newKey], KskType, true))
    && Alike(ValidRole(keys[w.oldKey], KskType, true), ValidRole(keys[w.newZsk], ZskType, true))
    && keys[w.oldKey].active == oldActive && keys[w.newKey].active && keys[w.newZsk].active == zskActive
    && keys[w.oldKey].published && keys[w.newKey].published && keys[w.newZsk].published
    && forall i <- keys :: (keys[i].active || keys[i].published) ==> i in {w.oldKey, w.newKey, w.newZsk}
  }

  lemma ClosedExactly(ks: seq<Key>, keys: map<int, Key>, allowed: set<int>)
    requires Lists(ks, keys) && forall i <- keys :: keys[i].id == i
    ensures Closed(ks, allowed) <==> forall i <- keys :: (keys[i].active || keys[i].published) ==> i in allowed
  {
    if Closed(ks, allowed) {
      forall i | i in keys && (keys[i].active || keys[i].published)
        ensures i in allowed
      {
        assert keys[i] in ks;
      }
    }
  }

  lemma PrepublishIsExact(ks: seq<Key>, e: Env, w: Workflow, now: Time)
    requires w.kind.Split? && LiveListing(ks, e, now) && PrepublishInventory(ks, w)
    ensures Exact(e.keys, w, true, false)
  {
    Listed(ks, e.keys);
    ClosedExactly(ks, e.keys, {w.oldKey, w.newKey, w.newZsk});
  }

  lemma SplitIsExact(ks: seq<Key>, e: Env, w: Workflow, now: Time, oldActive: bool)
    requires w.kind.Split? && LiveListing(ks, e, now)
    ensures SplitInventory(ks, w, oldActive) <==> Exact(e.keys, w, oldActive, true)
  {
    Listed(ks, e.keys);
    ClosedExactly(ks, e.keys, {w.oldKey, w.newKey, w.newZsk});
  }

  /** PowerDNS labels that agree with the flags never spoil a role. */
  lemma ExactRelabelled(a: map<int, Key>, b: map<int, Key>, w: Workflow, oldActive: bool, zskActive: bool)
    requires Exact(a, w, oldActive, zskActive) && SameKeys(a, b) && forall i <- b :: Labelled(b[i])
    ensures Exact(b, w, oldActive, zskActive)
  {
    assert b[w.oldKey] == a[w.oldKey].(keyType := b[w.oldKey].keyType);
    assert b[w.newKey] == a[w.newKey].(keyType := b[w.newKey].keyType);
    assert b[w.newZsk] == a[w.newZsk].(keyType := b[w.newZsk].keyType);
  }

  /** Activating the new ZSK leads from the exact pre-state to the exact post-state, under
      any relabelling before the next listing. */
  lemma ActivationCommutes(before: Env, ks: seq<Key>, w: Workflow, now: Time, o: Outcome, after: Env, ls: seq<Key>)
    requires w.kind.Split? && LiveListing(ks, before, now) && PrepublishInventory(ks, w)
    requires SetCall(before, now, w.newZsk, true, o).Some?
    requires SameKeys(SetCall(before, now, w.newZsk, true, o).value.keys, after.keys) && LiveListing(ls, after, now)
    ensures SplitInventory(ls, w, true)
  {
    var keys := SetCall(before, now, w.newZsk, true, o).value.keys;
    PrepublishIsExact(ks, before, w, now);
    assert keys == before.keys[w.newZsk := before.keys[w.newZsk].(active := true, published := true)];
    ExactRelabelled(keys, after.keys, w, true, true);
    SplitIsExact(ls, after, w, now, true);
  }

  /** Deactivating the old key leads from there to the exact retired state. */
  lemma DeactivationCommutes(before: Env, ks: seq<Key>, w: Workflow, now: Time, o: Outcome, after: Env, ls: seq<Key>)
    requires LiveListing(ks, before, now) && SplitInventory(ks, w, true)
    requires SetCall(before, now, w.oldKey, false, o).Some?
    requires SameKeys(SetCall(before, now, w.oldKey, false, o).value.keys, after.keys) && LiveListing(ls, after, now)
    ensures SplitInventory(ls, w, false)
  {
    var keys := SetCall(before, now, w.oldKey, false, o).value.keys;
    SplitIsExact(ks, before, w, now, true);
    assert keys == before.keys[w.oldKey := before.keys[w.oldKey].(active := false, published := true)];
    ExactRelabelled(keys, after.keys, w, false, true);
    SplitIsExact(ls, after, w, now, false);
  }

  /** A listing of relabelled keys still shows the inventory it showed before. */
  lemma RelabellingInvisible(e: Env, labels: map<int, KeyType>, ks: seq<Key>, ls: seq<Key>, w: Workflow, now: Time,
                             oldActive: bool)
    requires w.kind.Split? && LiveListing(ks, e, now) && LiveListing(ls, Relabelled(e, labels), now)
    ensures SplitInventory(ks, w, oldActive) ==> SplitInventory(ls, w, oldActive)
  {
    var e2 := Relabelled(e, labels);
    SplitIsExact(ks, e, w, now, oldActive);
    SplitIsExact(ls, e2, w, now, oldActive);
    RelabelledSame(e, labels);
    if SplitInventory(ks, w, oldActive) {
      ExactRelabelled(e.keys, e2.keys, w, oldActive, true);
    }
  }

  /** The activation phase writes exactly in the pre-state, goes on exactly in the post-state
      that a lost response leaves, and stops everywhere else. */
  lemma ActivationRecognised(now: Time, w: Workflow, ev: Evidence)
    requires w.kind.Split?
    ensures ActivateNewPlan(now, w, ev).Set? <==> PrepublishInventory(ev.keys, w)
    ensures SplitInventory(ev.keys, w, true) <==> ActivateNewPlan(now, w, ev).Persist? && ActivateNewPlan(now, w, ev).edit.Put?
    ensures ActivateNewPlan(now, w, ev).Set? ==> ActivateNewPlan(now, w, ev).key == w.newZsk && ActivateNewPlan(now, w, ev).on
    ensures !PrepublishInventory(ev.keys, w) && !SplitInventory(ev.keys, w, true) ==> ActivateNewPlan(now, w, ev) == Stop(w)
  {}

  /** The deactivation phase writes only while all three keys are active; once the old one
      is inactive, with or without the response, it never writes again. */
  lemma DeactivationRecognised(cfg: Config, now: Time, w: Workflow, ev: Evidence)
    requires w.kind.Split?
    ensures DeactivateOldPlan(cfg, now, w, ev).Set? ==> SplitInventory(ev.keys, w, true)
    ensures DeactivateOldPlan(cfg, now, w, ev).Set? ==> DeactivateOldPlan(cfg, now, w, ev).key == w.oldKey && !DeactivateOldPlan(cfg, now, w, ev).on
    ensures SplitInventory(ev.keys, w, false) ==> !DeactivateOldPlan(cfg, now, w, ev).Set?
    ensures !SplitInventory(ev.keys, w, true) && !SplitInventory(ev.keys, w, false) ==> DeactivateOldPlan(cfg, now, w, ev) == Stop(w)
  {}
}
