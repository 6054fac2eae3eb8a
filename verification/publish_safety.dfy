/** The publication wait, and what its end hands to the next phase. */
module PublishSafety {
  import opened Model
  import opened Inventory
  import opened Edits
  import opened Plans
  import opened World
  import opened Facts
  import opened Good
  import opened Safety
  import opened Listing

  /** What the closed prepublish inventory says of the live keys. */
  lemma InventoryShape(ks: seq<Key>, w: Workflow, e: Env, now: Time)
    requires EnvInv(e, now) && Lists(ks, e.keys) && PrepublishInventory(ks, w) && !w.kind.Enroll?
    ensures w.oldKey != w.newKey && {w.oldKey, w.newKey} <= e.cur.pub && w.oldKey in Active(e.keys)
    ensures w.kind.ZSK? ==> Has(e, w.oldKey, ZONE_FLAGS) && Has(e, w.newKey, ZONE_FLAGS) && w.newKey !in Active(e.keys)
    ensures !w.kind.ZSK? ==> Has(e, w.oldKey, SEP_FLAGS) && Has(e, w.newKey, SEP_FLAGS) && w.newKey in Active(e.keys)
    ensures w.kind.Split? ==>
              && DistinctSplitIds(w) && Has(e, w.newZsk, ZONE_FLAGS) && w.newZsk in e.cur.pub
              && Active(e.keys) == {w.oldKey, w.newKey}
    ensures w.kind.KSK? ==> forall i <- Active(e.keys) :: i == w.oldKey || i == w.newKey || Has(e, i, ZONE_FLAGS)
    ensures w.kind.KSK? ==> exists c :: Has(e, c, ZONE_FLAGS) && Active(e.keys) == {w.oldKey, w.newKey, c}
  {
    Listed(ks, e.keys);
    if w.kind.Split? {
      ClosedKeys(ks, e.keys, {w.oldKey, w.newKey, w.newZsk});
    } else {
      OneActive(ks, e.keys, Companion(w.kind));
      var c := ExactlyOneActive(ks, Companion(w.kind)).value;
      ClosedKeys(ks, e.keys, {w.oldKey, w.newKey, c.id});
      if w.kind.KSK? {
        assert Has(e, c.id, ZONE_FLAGS) && Active(e.keys) == {w.oldKey, w.newKey, c.id};
      }
    }
  }

  /** All published keys were seen on every path: from here each cache catches up by `next`. */
  lemma ObservedGood(cfg: Config, w: Workflow, x: Workflow, e: Env, now: Time, ks: seq<Key>, ttl: int)
    requires EnvInv(e, now) && GoodRecord(w, e, cfg.margin, now) && w.phase.WaitPublish?
    requires Lists(ks, e.keys) && PrepublishInventory(ks, w) && ttl >= e.cur.dnskeyTtl
    requires x.nextAt >= now + ttl + cfg.margin
    requires x == w.(startedAt := x.startedAt, nextAt := x.nextAt, attempts := x.attempts,
                     dnskeyTtl := x.dnskeyTtl, evidenceAt := x.evidenceAt)
    ensures GoodRecord(x, e, cfg.margin, now)
  {
    var m := cfg.margin;
    match w.kind
    case Enroll =>
    case ZSK =>
      InventoryShape(ks, w, e, now);
      SeenPublished(e, m, w.newKey, now, ttl, x.nextAt);
      var z, k :| GoodZsk(w, e, m, now, z, k);
      assert GoodZsk(x, e, m, now, z, k);
    case KSK =>
      InventoryShape(ks, w, e, now);
      Signers(e, now);
      SeenPublished(e, m, w.newKey, now, ttl, x.nextAt);
      var z, k :| GoodKsk(w, e, m, now, z, k);
      assert GoodKsk(x, e, m, now, z, k);
    case Split =>
      InventoryShape(ks, w, e, now);
      Signers(e, now);
      SeenPublished(e, m, w.newKey, now, ttl, x.nextAt);
      SeenPublished(e, m, w.newZsk, now, ttl, x.nextAt);
      var z :| GoodSplit(w, e, m, now, z);
      assert GoodSplit(x, e, m, now, z);
  }

  /** The new KSK is ready before the parent hears of it. */
  lemma TrustOpens(e: Env, m: Time, o: int, n: int, now: Time)
    requires Trust(e, m, o, now) && ChainOn(e, m, n, now)
    ensures TrustMid(e, m, o, n, now)
  {
    forall v | v in e.past && v.ds != {} && v.ds * {o, n} == {}
      ensures v.until + v.dsTtl + m <= now
    {
      assert v.ds * {o} <= v.ds * {o, n};
    }
    if Bare(e, m, now) {
      assert forall v <- e.past :: v.ds * {} == {};
    }
  }

  /** The wait is over: every cache has the new keys. */
  lemma PublishedGood(cfg: Config, w: Workflow, x: Workflow, e: Env, now: Time, ks: seq<Key>)
    requires EnvInv(e, now) && GoodRecord(w, e, cfg.margin, now) && w.phase.WaitPublish?
    requires Lists(ks, e.keys) && PrepublishInventory(ks, w)
    requires w.evidenceAt != UNSET && w.nextAt <= now
    requires x == Moved(w, now, if w.kind.ZSK? then ActivateNew else ParentRemove, now).(evidenceAt := UNSET)
    ensures GoodRecord(x, e, cfg.margin, now)
  {
    var m := cfg.margin;
    Later(e, m, w.nextAt, now);
    match w.kind
    case Enroll =>
    case ZSK =>
      InventoryShape(ks, w, e, now);
      var z, k :| GoodZsk(w, e, m, now, z, k);
      assert GoodZsk(x, e, m, now, z, k);
    case KSK =>
      InventoryShape(ks, w, e, now);
      var z, k :| GoodKsk(w, e, m, now, z, k);
      var c :| Has(e, c, ZONE_FLAGS) && Active(e.keys) == {w.oldKey, w.newKey, c};
      assert c == z;
      TrustOpens(e, m, w.oldKey, w.newKey, now);
      assert GoodKsk(x, e, m, now, z, k);
    case Split =>
      InventoryShape(ks, w, e, now);
      var z :| GoodSplit(w, e, m, now, z);
      TrustOpens(e, m, w.oldKey, w.newKey, now);
      assert GoodSplit(x, e, m, now, z);
  }

  /** The record after a successful publication check. */
  function AfterPublication(cfg: Config, now: Time, w: Workflow, ttl: Ttl): Workflow {
    if w.evidenceAt == UNSET then
      Moved(w, now, WaitPublish, now + Max(ttl, cfg.minDnskeyWait) + cfg.margin).(dnskeyTtl := ttl, evidenceAt := now)
    else Moved(w, now, if w.kind.ZSK? then ActivateNew else ParentRemove, now).(evidenceAt := UNSET)
  }

  lemma WaitPublishShape(cfg: Config, now: Time, w: Workflow, ev: Evidence)
    requires !w.kind.Enroll?
    ensures var plan := WaitPublishPlan(cfg, now, w, ev);
            var seen := if InitialSplit(w) then ev.authDnskey else ev.dnskey;
            || plan == Stop(w) || plan == Fail(w)
            || (PrepublishInventory(ev.keys, w) && seen.Some? && plan == Go(w, AfterPublication(cfg, now, w, seen.value.ttl)))
  {}

  lemma WaitPublishSafe(cfg: Config, now: Time, mem: State, disk: State, e: Env, w: Workflow, ev: Evidence)
    requires Handling(cfg, now, mem, disk, e, w) && w.phase.WaitPublish? && Truthful(ev, e)
    ensures Safe(cfg, w.zone, now, mem, disk, e, WaitPublishPlan(cfg, now, w, ev))
  {
    WaitPublishShape(cfg, now, w, ev);
    var plan := WaitPublishPlan(cfg, now, w, ev);
    if plan == Stop(w) {
      SafeStop(cfg, now, mem, disk, e, w);
    } else if plan == Fail(w) {
      SafeFail(cfg, now, mem, disk, e, w);
    } else {
      var seen := if InitialSplit(w) then ev.authDnskey else ev.dnskey;
      var x := AfterPublication(cfg, now, w, seen.value.ttl);
      if w.evidenceAt == UNSET {
        ObservedGood(cfg, w, x, e, now, ev.keys, seen.value.ttl);
      } else {
        PublishedGood(cfg, w, x, e, now, ev.keys);
      }
      SafeGo(cfg, now, mem, disk, e, w, x);
    }
  }
}
