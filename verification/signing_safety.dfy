/** Activating the new signer, retiring the old key and deleting it. */
module SigningSafety {
  import opened Model
  import opened Inventory
  import opened Edits
  import opened Plans
  import opened World
  import opened Facts
  import opened Good
  import opened Safety
  import opened Listing

  // ---- activation ---------------------------------------------------------------------

  function Signing(now: Time, w: Workflow): Workflow { Moved(w, now, WaitNewSignature, now).(evidenceAt := UNSET) }

  lemma ActivateNewShape(now: Time, w: Workflow, ev: Evidence)
    ensures var plan := ActivateNewPlan(now, w, ev);
            var k := ById(ev.keys, SignerId(w));
            || plan == Stop(w)
            || (k.Some? && k.value.active && plan == Go(w, Signing(now, w)))
            || (k.Some? && plan == Set(w, k.value.id, true, Go(w, Signing(now, w))))
  {}

  lemma ActivatedGood(w: Workflow, e: Env, m: Time, now: Time)
    requires GoodRecord(w, e, m, now) && w.phase.ActivateNew? && SignerId(w) in Active(e.keys)
    ensures GoodRecord(Signing(now, w), e, m, now)
  {
    var x := Signing(now, w);
    if w.kind.ZSK? {
      var z, k :| GoodZsk(w, e, m, now, z, k);
      assert GoodZsk(x, e, m, now, z, k);
    } else if w.kind.Split? {
      var z :| GoodSplit(w, e, m, now, z);
      assert GoodSplit(x, e, m, now, z);
    }
  }

  /** Caches already hold the new signer's DNSKEY, so its signatures may appear at once,
      even if the old key stops signing zone data at that moment. */
  lemma ActivatingGood(w: Workflow, e: Env, m: Time, now: Time, o: Outcome)
    requires EnvInv(e, now) && GoodRecord(w, e, m, now) && w.phase.ActivateNew?
    requires SetCall(e, now, SignerId(w), true, o).Some?
    ensures var e2 := SetCall(e, now, SignerId(w), true, o).value;
            EnvInv(e2, now) && GoodRecord(w, e2, m, now) && SignerId(w) in Active(e2.keys)
  {
    var e2 := SetCall(e, now, SignerId(w), true, o).value;
    if w.kind.ZSK? {
      var z, k :| GoodZsk(w, e, m, now, z, k);
      Switching(e, now, w.newKey, true, o);
      Carry(e, e2, m, now);
      CarryTrust(e, e2, m, now);
      Signers(e2, now);
      assert w.oldKey in e2.cur.zs * {w.oldKey};
      assert GoodZsk(w, e2, m, now, z, k);
    } else if w.kind.Split? {
      var z :| GoodSplit(w, e, m, now, z);
      Switching(e, now, w.newZsk, true, o);
      Carry(e, e2, m, now);
      CarryTrust(e, e2, m, now);
      Signers(e2, now);
      assert w.newZsk in e2.cur.zs * {w.oldKey, w.newZsk};
      assert GoodSplit(w, e2, m, now, z);
    }
  }

  lemma ActivateNewSafe(cfg: Config, now: Time, mem: State, disk: State, e: Env, w: Workflow, ev: Evidence)
    requires Handling(cfg, now, mem, disk, e, w) && w.phase.ActivateNew? && Truthful(ev, e)
    ensures Safe(cfg, w.zone, now, mem, disk, e, ActivateNewPlan(now, w, ev))
  {
    ActivateNewShape(now, w, ev);
    Listed(ev.keys, e.keys);
    var plan := ActivateNewPlan(now, w, ev);
    var k := ById(ev.keys, SignerId(w));
    if plan == Stop(w) {
      SafeStop(cfg, now, mem, disk, e, w);
    } else if plan == Go(w, Signing(now, w)) {
      assert SignerId(w) in Active(e.keys);
      ActivatedGood(w, e, cfg.margin, now);
      SafeGo(cfg, now, mem, disk, e, w, Signing(now, w));
    } else {
      forall o | SetCall(e, now, k.value.id, true, o).Some?
        ensures var e2 := SetCall(e, now, k.value.id, true, o).value;
                Handling(cfg, now, mem, disk, e2, w) && Safe(cfg, w.zone, now, mem, disk, e2, Go(w, Signing(now, w)))
      {
        var e2 := SetCall(e, now, k.value.id, true, o).value;
        ActivatingGood(w, e, cfg.margin, now, o);
        StillHandling(cfg, now, mem, disk, e, e2, w);
        ActivatedGood(w, e2, cfg.margin, now);
        SafeGo(cfg, now, mem, disk, e2, w, Signing(now, w));
      }
      SafeSet(cfg, now, mem, disk, e, w, k.value.id, true, Go(w, Signing(now, w)));
    }
  }

  // ---- waiting for the new signature -----------------------------------------------------

  /** A record that differs only in what the signature wait records. */
  predicate SameSigning(w: Workflow, x: Workflow) {
    x.Id() == w.Id() && SameIds(x, w) && x.reg == w.reg
  }

  lemma WaitNewSignatureShape(cfg: Config, now: Time, w: Workflow, ev: Evidence)
    requires w.phase.WaitNewSignature?
    ensures var plan := WaitNewSignaturePlan(cfg, now, w, ev);
            || plan == Stop(w) || plan == Fail(w)
            || exists x :: plan == Go(w, x) && SameSigning(w, x) && (x.phase.WaitNewSignature? || x.phase.DeactivateOld?)
  {}

  /** Signing goes on; the old key may be retired next, or the wait may start again. */
  lemma SigningGood(w: Workflow, x: Workflow, e: Env, m: Time, now: Time)
    requires GoodRecord(w, e, m, now) && w.phase.WaitNewSignature? && SameSigning(w, x)
    requires x.phase.WaitNewSignature? || x.phase.DeactivateOld?
    ensures GoodRecord(x, e, m, now)
  {
    if w.kind.ZSK? {
      var z, k :| GoodZsk(w, e, m, now, z, k);
      WiderBase(e, m, w.oldKey, w.newKey, now);
      assert GoodZsk(x, e, m, now, z, k);
    } else if w.kind.Split? {
      var z :| GoodSplit(w, e, m, now, z);
      assert GoodSplit(x, e, m, now, z);
    }
  }

  lemma WaitNewSignatureSafe(cfg: Config, now: Time, mem: State, disk: State, e: Env, w: Workflow, ev: Evidence)
    requires Handling(cfg, now, mem, disk, e, w) && w.phase.WaitNewSignature? && Truthful(ev, e)
    ensures Safe(cfg, w.zone, now, mem, disk, e, WaitNewSignaturePlan(cfg, now, w, ev))
  {
    WaitNewSignatureShape(cfg, now, w, ev);
    var plan := WaitNewSignaturePlan(cfg, now, w, ev);
    if plan == Stop(w) {
      SafeStop(cfg, now, mem, disk, e, w);
    } else if plan == Fail(w) {
      SafeFail(cfg, now, mem, disk, e, w);
    } else {
      var x :| plan == Go(w, x) && SameSigning(w, x) && (x.phase.WaitNewSignature? || x.phase.DeactivateOld?);
      SigningGood(w, x, e, cfg.margin, now);
      SafeGo(cfg, now, mem, disk, e, w, x);
    }
  }

  // ---- deactivation ------------------------------------------------------------------------

  function Retiring(cfg: Config, now: Time, w: Workflow): Workflow {
    if w.kind.KSK? then Moved(w, now, DeleteOld, now) else Moved(w, now, WaitRetire, now + w.zoneTtl + cfg.margin)
  }

  /** The old key is retired only with the zone TTL read no larger than the one recorded,
      and the attested restart only while all three split keys are active. */
  lemma DeactivateOldShape(cfg: Config, now: Time, w: Workflow, ev: Evidence)
    requires w.phase.DeactivateOld?
    ensures var plan := DeactivateOldPlan(cfg, now, w, ev);
            var prior := ById(ev.keys, w.oldKey);
            var ready := prior.Some? && Live(ById(ev.keys, w.newKey)) && (w.kind.Split? ==> Live(ById(ev.keys, w.newZsk)))
                         && (!w.kind.KSK? ==> ev.zoneTtls.Some? && MaxTtl(ev.zoneTtls.value) <= w.zoneTtl);
            || plan == Stop(w) || plan == Fail(w)
            || (exists x :: plan == Go(w, x) && SameSigning(w, x) && x.phase.DeactivateOld?)
            || (exists x :: plan == Go(w, x) && SameSigning(w, x) && x.phase.WaitNewSignature? && w.kind.Split?
                            && SplitInventory(ev.keys, w, true))
            || (ready && !prior.value.active && plan == Go(w, Retiring(cfg, now, w)))
            || (ready && prior.value.active && plan == Set(w, w.oldKey, false, Go(w, Retiring(cfg, now, w))))
  {}

  lemma StillDeactivating(w: Workflow, x: Workflow, e: Env, m: Time, now: Time)
    requires GoodRecord(w, e, m, now) && w.phase.DeactivateOld? && SameSigning(w, x)
    requires x.phase.DeactivateOld? || (x.phase.WaitNewSignature? && w.kind.Split? && w.oldKey in Active(e.keys))
    ensures GoodRecord(x, e, m, now)
  {
    if w.kind.ZSK? {
      var z, k :| GoodZsk(w, e, m, now, z, k);
      assert GoodZsk(x, e, m, now, z, k);
    } else if w.kind.KSK? {
      var z, k :| GoodKsk(w, e, m, now, z, k);
      assert GoodKsk(x, e, m, now, z, k);
    } else if w.kind.Split? {
      var z :| GoodSplit(w, e, m, now, z);
      assert GoodSplit(x, e, m, now, z);
    }
  }

  /** With the old key inactive, the retirement wait outlasts every signature it made. */
  lemma RetiringGood(cfg: Config, w: Workflow, e: Env, now: Time)
    requires EnvInv(e, now) && GoodRecord(w, e, cfg.margin, now) && w.phase.DeactivateOld?
    requires w.oldKey !in Active(e.keys)
    requires w.kind.KSK? || w.zoneTtl >= e.cur.zoneTtl
    ensures GoodRecord(Retiring(cfg, now, w), e, cfg.margin, now)
  {
    var m, x := cfg.margin, Retiring(cfg, now, w);
    Signers(e, now);
    if w.kind.ZSK? {
      var z, k :| GoodZsk(w, e, m, now, z, k);
      SeenSigning(e, m, w.newKey, now, w.zoneTtl, x.nextAt);
      assert GoodZsk(x, e, m, now, z, k);
    } else if w.kind.KSK? {
      var z, k :| GoodKsk(w, e, m, now, z, k);
      assert GoodKsk(x, e, m, now, z, k);
    } else if w.kind.Split? {
      var z :| GoodSplit(w, e, m, now, z);
      SeenSigning(e, m, w.newZsk, now, w.zoneTtl, x.nextAt);
      assert GoodSplit(x, e, m, now, z);
    }
  }

  lemma DeactivatingGood(w: Workflow, e: Env, m: Time, now: Time, o: Outcome)
    requires EnvInv(e, now) && GoodRecord(w, e, m, now) && w.phase.DeactivateOld?
    requires w.oldKey in Active(e.keys)
    requires SetCall(e, now, w.oldKey, false, o).Some?
    ensures var e2 := SetCall(e, now, w.oldKey, false, o).value;
            EnvInv(e2, now) && GoodRecord(w, e2, m, now) && w.oldKey !in Active(e2.keys) && e2.cur.zoneTtl == e.cur.zoneTtl
  {
    var e2 := SetCall(e, now, w.oldKey, false, o).value;
    assert w.oldKey in e.cur.pub by {
      if w.kind.ZSK? {
        var z, k :| GoodZsk(w, e, m, now, z, k);
        assert PubBy(e, m, w.oldKey, now);
      } else if w.kind.Split? {
        var z :| GoodSplit(w, e, m, now, z);
        assert PubBy(e, m, w.oldKey, now);
      }
    }
    Switching(e, now, w.oldKey, false, o);
    Carry(e, e2, m, now);
    CarryTrust(e, e2, m, now);
    Signers(e2, now);
    if w.kind.ZSK? {
      var z, k :| GoodZsk(w, e, m, now, z, k);
      assert w.newKey in e2.cur.zs * {w.oldKey, w.newKey};
      assert GoodZsk(w, e2, m, now, z, k);
    } else if w.kind.KSK? {
      var z, k :| GoodKsk(w, e, m, now, z, k);
      assert z in e2.cur.zs * {z};
      assert GoodKsk(w, e2, m, now, z, k);
    } else if w.kind.Split? {
      var z :| GoodSplit(w, e, m, now, z);
      assert w.newZsk in e2.cur.zs * {w.oldKey, w.newZsk};
      assert GoodSplit(w, e2, m, now, z);
    }
  }

  lemma DeactivateOldSafe(cfg: Config, now: Time, mem: State, disk: State, e: Env, w: Workflow, ev: Evidence)
    requires Handling(cfg, now, mem, disk, e, w) && w.phase.DeactivateOld? && Truthful(ev, e)
    ensures Safe(cfg, w.zone, now, mem, disk, e, DeactivateOldPlan(cfg, now, w, ev))
  {
    DeactivateOldShape(cfg, now, w, ev);
    Listed(ev.keys, e.keys);
    var plan := DeactivateOldPlan(cfg, now, w, ev);
    var prior := ById(ev.keys, w.oldKey);
    var x := Retiring(cfg, now, w);
    if plan == Stop(w) {
      SafeStop(cfg, now, mem, disk, e, w);
    } else if plan == Fail(w) {
      SafeFail(cfg, now, mem, disk, e, w);
    } else if y :| plan == Go(w, y) && SameSigning(w, y) && y.phase.DeactivateOld? {
      StillDeactivating(w, y, e, cfg.margin, now);
      SafeGo(cfg, now, mem, disk, e, w, y);
    } else if y :| plan == Go(w, y) && SameSigning(w, y) && y.phase.WaitNewSignature? && w.kind.Split? && SplitInventory(ev.keys, w, true) {
      StillDeactivating(w, y, e, cfg.margin, now);
      SafeGo(cfg, now, mem, disk, e, w, y);
    } else if !prior.value.active {
      RetiringGood(cfg, w, e, now);
      SafeGo(cfg, now, mem, disk, e, w, x);
    } else {
      forall o | SetCall(e, now, w.oldKey, false, o).Some?
        ensures var e2 := SetCall(e, now, w.oldKey, false, o).value;
                Handling(cfg, now, mem, disk, e2, w) && Safe(cfg, w.zone, now, mem, disk, e2, Go(w, x))
      {
        var e2 := SetCall(e, now, w.oldKey, false, o).value;
        DeactivatingGood(w, e, cfg.margin, now, o);
        StillHandling(cfg, now, mem, disk, e, e2, w);
        RetiringGood(cfg, w, e2, now);
        SafeGo(cfg, now, mem, disk, e2, w, x);
      }
      SafeSet(cfg, now, mem, disk, e, w, w.oldKey, false, Go(w, x));
    }
  }

  // ---- retirement and deletion -----------------------------------------------------------

  lemma RetiredGood(w: Workflow, e: Env, m: Time, now: Time)
    requires GoodRecord(w, e, m, now) && w.phase.WaitRetire? && w.nextAt <= now
    ensures GoodRecord(Moved(w, now, DeleteOld, now), e, m, now)
  {
    var x := Moved(w, now, DeleteOld, now);
    Later(e, m, w.nextAt, now);
    if w.kind.ZSK? {
      var z, k :| GoodZsk(w, e, m, now, z, k);
      assert PubBy(e, m, w.newKey, now);
      assert GoodZsk(x, e, m, now, z, k);
    } else if w.kind.Split? {
      var z :| GoodSplit(w, e, m, now, z);
      assert GoodSplit(x, e, m, now, z);
    }
  }

  lemma WaitRetireSafe(cfg: Config, now: Time, mem: State, disk: State, e: Env, w: Workflow, ev: Evidence)
    requires Handling(cfg, now, mem, disk, e, w) && w.phase.WaitRetire? && Truthful(ev, e)
    ensures Safe(cfg, w.zone, now, mem, disk, e, WaitRetirePlan(now, w, ev))
  {
    SafeStop(cfg, now, mem, disk, e, w);
    SafeFail(cfg, now, mem, disk, e, w);
    RetiredGood(w, e, cfg.margin, now);
    SafeGo(cfg, now, mem, disk, e, w, Moved(w, now, DeleteOld, now));
  }

  /** When only the deletion is left, the zone no longer depends on the old key. */
  lemma DeletableSteady(w: Workflow, e: Env, m: Time, now: Time)
    requires GoodRecord(w, e, m, now) && w.phase.DeleteOld?
    ensures Steady(e, m, now)
  {
    if w.kind.ZSK? {
      var z, k :| GoodZsk(w, e, m, now, z, k);
      assert SteadyAt(e, m, w.newKey, k, now);
    } else if w.kind.KSK? {
      var z, k :| GoodKsk(w, e, m, now, z, k);
      SettlingIsSafe(e, m, now, w.newKey);
      assert SteadyAt(e, m, z, w.newKey, now);
    } else if w.kind.Split? {
      var z :| GoodSplit(w, e, m, now, z);
      SettlingIsSafe(e, m, now, w.newKey);
      assert SteadyAt(e, m, w.newZsk, w.newKey, now);
    }
  }

  lemma DeletingGood(w: Workflow, e: Env, m: Time, now: Time, o: Outcome)
    requires EnvInv(e, now) && GoodRecord(w, e, m, now) && w.phase.DeleteOld?
    requires DeleteCall(e, now, w.oldKey, o).Some?
    ensures var e2 := DeleteCall(e, now, w.oldKey, o).value; EnvInv(e2, now) && GoodRecord(w, e2, m, now)
  {
    var e2 := DeleteCall(e, now, w.oldKey, o).value;
    Deleting(e, now, w.oldKey, o);
    Carry(e, e2, m, now);
    CarryTrust(e, e2, m, now);
    Signers(e2, now);
    if w.kind.ZSK? {
      var z, k :| GoodZsk(w, e, m, now, z, k);
      assert w.newKey in e2.cur.zs * {w.newKey};
      assert GoodZsk(w, e2, m, now, z, k);
    } else if w.kind.KSK? {
      var z, k :| GoodKsk(w, e, m, now, z, k);
      assert z in e2.cur.zs * {z} && PubBy(e, m, z, now);
      assert GoodKsk(w, e2, m, now, z, k);
    } else if w.kind.Split? {
      var z :| GoodSplit(w, e, m, now, z);
      assert w.newZsk in e2.cur.zs * {w.newZsk};
      assert GoodSplit(w, e2, m, now, z);
    }
  }

  lemma DeleteOldShape(w: Workflow, ev: Evidence)
    ensures var plan := DeleteOldPlan(w, ev);
            || plan == Stop(w) || plan == Fail(w) || plan == Finish(w) || plan == Delete(w, w.oldKey, Finish(w))
  {}

  lemma DeleteOldSafe(cfg: Config, now: Time, mem: State, disk: State, e: Env, w: Workflow, ev: Evidence)
    requires Handling(cfg, now, mem, disk, e, w) && w.phase.DeleteOld? && Truthful(ev, e)
    ensures Safe(cfg, w.zone, now, mem, disk, e, DeleteOldPlan(w, ev))
  {
    DeleteOldShape(w, ev);
    DeletableSteady(w, e, cfg.margin, now);
    var plan := DeleteOldPlan(w, ev);
    if plan == Stop(w) {
      SafeStop(cfg, now, mem, disk, e, w);
    } else if plan == Fail(w) {
      SafeFail(cfg, now, mem, disk, e, w);
    } else if plan == Finish(w) {
      SafeFinish(cfg, now, mem, disk, e, w);
    } else {
      forall o | DeleteCall(e, now, w.oldKey, o).Some?
        ensures var e2 := DeleteCall(e, now, w.oldKey, o).value;
                Handling(cfg, now, mem, disk, e2, w) && Safe(cfg, w.zone, now, mem, disk, e2, Finish(w))
      {
        var e2 := DeleteCall(e, now, w.oldKey, o).value;
        DeletingGood(w, e, cfg.margin, now, o);
        StillHandling(cfg, now, mem, disk, e, e2, w);
        DeletableSteady(w, e2, cfg.margin, now);
        SafeFinish(cfg, now, mem, disk, e2, w);
      }
      SafeDelete(cfg, now, mem, disk, e, w, w.oldKey, Finish(w));
    }
  }
}
