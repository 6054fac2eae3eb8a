/** Enrollment: keys are never touched, and the parent learns of the key-signing key only
    once every cache has it. */
module EnrollSafety {
  import opened Model
  import opened Inventory
  import opened Edits
  import opened Plans
  import opened World
  import opened Facts
  import opened Good
  import opened Safety
  import opened Listing
  import opened PublishSafety

  /** A validated enrollment inventory names exactly the two keys the zone relies on. */
  lemma EnrollmentKeys(cfg: Config, ks: seq<Key>, w: Workflow, e: Env, now: Time, z: int, k: int)
    requires EnvInv(e, now) && Lists(ks, e.keys)
    requires Active(e.keys) == {z, k} && Has(e, k, SEP_FLAGS) && (z == k || Has(e, z, ZONE_FLAGS))
    requires EnrollmentInventory(cfg, ks, w.newKey, w.newZsk, w.keyset).Some?
    ensures var found := EnrollmentInventory(cfg, ks, w.newKey, w.newZsk, w.keyset).value;
            && found.0.id == k && found.1.id == z && z != k && k in e.cur.pub
            && (w.newKey != 0 ==> w.newKey == k)
  {
    var found := EnrollmentInventory(cfg, ks, w.newKey, w.newZsk, w.keyset).value;
    assert found.0 in LiveKeys(ks) && found.1 in LiveKeys(ks);
    assert found.0.id in Active(e.keys) && found.1.id in Active(e.keys);
  }

  /** The records an enrollment step may write while the parent is not yet involved. */
  function Published(cfg: Config, now: Time, w: Workflow, ttl: Ttl): Workflow {
    if w.evidenceAt == UNSET then
      Moved(w, now, EnrollWaitPublish, now + Max(ttl, cfg.minDnskeyWait) + cfg.margin).(evidenceAt := now, dnskeyTtl := ttl)
    else Moved(w, now, EnrollParentAdd, now).(evidenceAt := UNSET)
  }

  predicate Undecided(w: Workflow, x: Workflow) {
    x.Id() == w.Id() && (x.phase.EnrollDiscovered? || (x.phase.EnrollWaitPublish? && x.evidenceAt == UNSET && x.newKey != 0))
  }

  function Rejected(now: Time, w: Workflow): Workflow {
    w.(phase := Idle, completedAt := now, nextAt := UNSET, disposition := Ineligible)
  }

  lemma EnrollDiscoveredShape(cfg: Config, now: Time, zone: Zone, w: Workflow, ev: Evidence)
    requires w.phase.EnrollDiscovered?
    ensures var plan := EnrollDiscoveredPlan(cfg, now, zone, w, ev);
            || plan == Stop(w) || plan == Fail(w) || plan == Finish(w)
            || plan == Persist(Put(Rejected(now, w)), Rest, Fail(w))
            || exists x :: plan == Go(w, x) && Undecided(w, x)
  {
    var plan := EnrollDiscoveredPlan(cfg, now, zone, w, ev);
    var found := EnrollmentInventory(cfg, ev.keys, 0, 0, NoFingerprint);
    if Unclassified(w) && !KeyScheme(ev.keys).CskScheme? && found.Some? {
      var x := Moved(w, now, EnrollDiscovered, now + cfg.discoveryGrace)
                 .(newKey := found.value.0.id, newZsk := found.value.1.id, keyset := found.value.2,
                   evidenceAt := UNSET, dnskeyTtl := 0);
      assert plan == Go(w, x) && Undecided(w, x);
    } else {
      var x := Moved(w, now, EnrollWaitPublish, now).(evidenceAt := UNSET, dnskeyTtl := 0);
      assert !Unclassified(w) ==> Undecided(w, x);
    }
  }

  lemma UndecidedGood(w: Workflow, x: Workflow, e: Env, m: Time, now: Time)
    requires GoodRecord(w, e, m, now) && w.kind.Enroll? && w.phase.EnrollDiscovered? && Undecided(w, x)
    ensures GoodRecord(x, e, m, now) && Steady(e, m, now)
  {
    var z, k :| GoodEnroll(w, e, m, now, z, k);
    assert GoodEnroll(x, e, m, now, z, k);
  }

  lemma RejectedGood(cfg: Config, now: Time, mem: State, disk: State, e: Env, w: Workflow)
    requires Handling(cfg, now, mem, disk, e, w) && w.kind.Enroll? && Steady(e, cfg.margin, now)
    ensures StateInv(cfg, WithRecord(mem, Rejected(now, w)), w.zone, e, now)
  {
    var x := Rejected(now, w);
    OthersIdle(RecordsOf(mem, w.zone), w.kind);
    Replaced(mem, x);
    NoneGood(cfg, RecordsOf(WithRecord(mem, x), w.zone), e, now);
  }

  lemma EnrollDiscoveredSafe(cfg: Config, now: Time, mem: State, disk: State, e: Env, zone: Zone, w: Workflow,
                             ev: Evidence)
    requires Handling(cfg, now, mem, disk, e, w) && w.kind.Enroll? && w.phase.EnrollDiscovered? && Truthful(ev, e)
    ensures Safe(cfg, w.zone, now, mem, disk, e, EnrollDiscoveredPlan(cfg, now, zone, w, ev))
  {
    EnrollDiscoveredShape(cfg, now, zone, w, ev);
    UndecidedGood(w, w, e, cfg.margin, now);
    var plan := EnrollDiscoveredPlan(cfg, now, zone, w, ev);
    if plan == Stop(w) {
      SafeStop(cfg, now, mem, disk, e, w);
    } else if plan == Fail(w) {
      SafeFail(cfg, now, mem, disk, e, w);
    } else if plan == Finish(w) {
      SafeFinish(cfg, now, mem, disk, e, w);
    } else if plan == Persist(Put(Rejected(now, w)), Rest, Fail(w)) {
      var s := WithRecord(mem, Rejected(now, w));
      RejectedGood(cfg, now, mem, disk, e, w);
      SafeRest(cfg, w.zone, now, s, s, e);
      SafeSave(cfg, now, mem, disk, e, w, Put(Rejected(now, w)), Rest);
    } else {
      var x :| plan == Go(w, x) && Undecided(w, x);
      UndecidedGood(w, x, e, cfg.margin, now);
      SafeGo(cfg, now, mem, disk, e, w, x);
    }
  }

  // ---- publication ---------------------------------------------------------------------

  lemma EnrollPublishShape(cfg: Config, now: Time, zone: Zone, w: Workflow, ev: Evidence)
    ensures var plan := EnrollWaitPublishPlan(cfg, now, zone, w, ev);
            var found := EnrollmentInventory(cfg, ev.keys, w.newKey, w.newZsk, w.keyset);
            || plan == Stop(w) || plan == Fail(w)
            || (found.Some? && EnrollmentEvidence(ev, found.value.0.id, found.value.1.id, false)
                && plan == Go(w, Published(cfg, now, w, ev.authDnskey.value.ttl)))
  {}

  lemma EnrollPublishGood(cfg: Config, now: Time, e: Env, w: Workflow, ev: Evidence)
    requires EnvInv(e, now) && Truthful(ev, e) && GoodRecord(w, e, cfg.margin, now)
    requires w.kind.Enroll? && w.phase.EnrollWaitPublish? && w.nextAt <= now
    requires var found := EnrollmentInventory(cfg, ev.keys, w.newKey, w.newZsk, w.keyset);
             found.Some? && EnrollmentEvidence(ev, found.value.0.id, found.value.1.id, false)
    ensures GoodRecord(Published(cfg, now, w, ev.authDnskey.value.ttl), e, cfg.margin, now)
  {
    var m, ttl := cfg.margin, ev.authDnskey.value.ttl;
    var x := Published(cfg, now, w, ttl);
    var z, k :| GoodEnroll(w, e, m, now, z, k);
    EnrollmentKeys(cfg, ev.keys, w, e, now, z, k);
    if w.evidenceAt == UNSET {
      SeenPublished(e, m, k, now, ttl, x.nextAt);
      assert GoodEnroll(x, e, m, now, z, k);
    } else {
      Later(e, m, w.nextAt, now);
      TrustOpens(e, m, k, k, now);
      assert GoodEnroll(x, e, m, now, z, k);
    }
  }

  lemma EnrollWaitPublishSafe(cfg: Config, now: Time, mem: State, disk: State, e: Env, zone: Zone, w: Workflow,
                              ev: Evidence)
    requires Handling(cfg, now, mem, disk, e, w) && w.kind.Enroll? && w.phase.EnrollWaitPublish? && Truthful(ev, e)
    ensures Safe(cfg, w.zone, now, mem, disk, e, EnrollWaitPublishPlan(cfg, now, zone, w, ev))
  {
    EnrollPublishShape(cfg, now, zone, w, ev);
    var plan := EnrollWaitPublishPlan(cfg, now, zone, w, ev);
    if plan == Stop(w) {
      SafeStop(cfg, now, mem, disk, e, w);
    } else if plan == Fail(w) {
      SafeFail(cfg, now, mem, disk, e, w);
    } else {
      EnrollPublishGood(cfg, now, e, w, ev);
      SafeGo(cfg, now, mem, disk, e, w, Published(cfg, now, w, ev.authDnskey.value.ttl));
    }
  }

  // ---- the registrar write ---------------------------------------------------------------

  /** Within the two parent phases only the wait's own fields change. */
  predicate ParentMove(w: Workflow, x: Workflow) {
    x.Id() == w.Id() && x.newKey == w.newKey && (x.phase.EnrollParentAdd? || x.phase.EnrollWaitParent?)
  }

  lemma ParentMoveGood(w: Workflow, x: Workflow, e: Env, m: Time, now: Time)
    requires GoodRecord(w, e, m, now) && w.kind.Enroll? && (w.phase.EnrollParentAdd? || w.phase.EnrollWaitParent?)
    requires ParentMove(w, x)
    ensures GoodRecord(x, e, m, now)
  {
    var z, k :| GoodEnroll(w, e, m, now, z, k);
    assert GoodEnroll(x, e, m, now, z, k);
  }

  lemma EnrollParentAddShape(cfg: Config, now: Time, zone: Zone, w: Workflow, ev: Evidence, armedAt: Time)
    requires w.phase.EnrollParentAdd?
    ensures var plan := EnrollParentAddPlan(cfg, now, zone, w, ev, armedAt);
            var found := EnrollmentInventory(cfg, ev.keys, w.newKey, w.newZsk, w.keyset);
            || plan == Stop(w) || plan == Fail(w)
            || (exists x :: plan == Go(w, x) && ParentMove(w, x))
            || (found.Some? && ev.remote.Some? && Empty(ev.remote.value) && w.reg.attemptedAt == UNSET
                && plan == Persist(MarkEnroll(w), Update(Requested(w, now), found.value.0.id), Fail(w)))
  {
    var plan := EnrollParentAddPlan(cfg, now, zone, w, ev, armedAt);
    if plan.Persist? && plan.edit.Put? {
      assert plan == Go(w, plan.edit.x) && ParentMove(w, plan.edit.x);
    }
  }

  lemma AskingGood(w: Workflow, e: Env, m: Time, now: Time)
    requires GoodRecord(w, e, m, now) && w.kind.Enroll? && w.phase.EnrollParentAdd? && Claim(e.remote) == {}
    ensures GoodRecord(w, e.(pending := {w.newKey}), m, now)
  {
    var e2 := e.(pending := {w.newKey});
    Carry(e, e2, m, now);
    var z, k :| GoodEnroll(w, e, m, now, z, k);
    assert GoodEnroll(w, e2, m, now, z, k);
  }

  lemma EnrollRequestSafe(cfg: Config, now: Time, mem: State, disk: State, e: Env, w: Workflow)
    requires Handling(cfg, now, mem, disk, e, w) && w.kind.Enroll? && w.phase.EnrollParentAdd?
    requires Claim(e.remote) == {} && w.reg.attemptedAt == UNSET
    ensures Safe(cfg, w.zone, now, mem, disk, e, Persist(MarkEnroll(w), Update(Requested(w, now), w.newKey), Fail(w)))
  {
    var x := Requested(w, now);
    var s := WithRecord(mem, x);
    var e2 := e.(pending := {w.newKey});
    ParentMoveGood(w, x, e, cfg.margin, now);
    if Handling(cfg, now, s, s, e, x) {
      AskingGood(x, e, cfg.margin, now);
      StillHandling(cfg, now, s, s, e, e2, x);
      SafeFail(cfg, now, s, s, e2, x);
      SafeStop(cfg, now, s, s, e2, x);
      forall reply: Option<Job>
        ensures Safe(cfg, w.zone, now, s, s, e2, AfterUpdate(now, x, reply))
      {
        AcceptedSafe(cfg, now, s, s, e2, x, reply);
      }
      SafeUpdate(cfg, now, s, s, e, x, w.newKey);
    }
    SafeMark(cfg, now, mem, disk, e, w, MarkEnroll(w), x, Update(x, w.newKey));
  }

  lemma AcceptedSafe(cfg: Config, now: Time, mem: State, disk: State, e: Env, w: Workflow, reply: Option<Job>)
    requires Handling(cfg, now, mem, disk, e, w) && w.kind.Enroll? && w.phase.EnrollParentAdd?
    ensures Safe(cfg, w.zone, now, mem, disk, e, AfterUpdate(now, w, reply))
  {
    SafeFail(cfg, now, mem, disk, e, w);
    SafeStop(cfg, now, mem, disk, e, w);
    if reply.Some? && reply.value.id > 0 {
      var reg := w.reg.(stid := reply.value.stid, jobId := reply.value.id, jobStatus := reply.value.status);
      var y := Moved(w, now, EnrollWaitParent, now).(reg := reg, evidenceAt := UNSET);
      ParentMoveGood(w, y, e, cfg.margin, now);
      SafeGo(cfg, now, mem, disk, e, w, y);
    }
  }

  lemma EnrollParentAddSafe(cfg: Config, now: Time, mem: State, disk: State, e: Env, zone: Zone, w: Workflow,
                            ev: Evidence, armedAt: Time)
    requires Handling(cfg, now, mem, disk, e, w) && w.kind.Enroll? && w.phase.EnrollParentAdd? && Truthful(ev, e)
    ensures Safe(cfg, w.zone, now, mem, disk, e, EnrollParentAddPlan(cfg, now, zone, w, ev, armedAt))
  {
    EnrollParentAddShape(cfg, now, zone, w, ev, armedAt);
    var plan := EnrollParentAddPlan(cfg, now, zone, w, ev, armedAt);
    if plan == Stop(w) {
      SafeStop(cfg, now, mem, disk, e, w);
    } else if plan == Fail(w) {
      SafeFail(cfg, now, mem, disk, e, w);
    } else if x :| plan == Go(w, x) && ParentMove(w, x) {
      ParentMoveGood(w, x, e, cfg.margin, now);
      SafeGo(cfg, now, mem, disk, e, w, x);
    } else {
      var z, k :| GoodEnroll(w, e, cfg.margin, now, z, k);
      EnrollmentKeys(cfg, ev.keys, w, e, now, z, k);
      EnrollRequestSafe(cfg, now, mem, disk, e, w);
    }
  }

  // ---- waiting for the parent --------------------------------------------------------------

  lemma EnrollWaitParentShape(cfg: Config, now: Time, zone: Zone, w: Workflow, ev: Evidence)
    requires w.phase.EnrollWaitParent?
    ensures var plan := EnrollWaitParentPlan(cfg, now, zone, w, ev);
            var found := EnrollmentInventory(cfg, ev.keys, w.newKey, w.newZsk, w.keyset);
            || plan == Stop(w) || plan == Fail(w)
            || (exists x :: plan == Go(w, x) && ParentMove(w, x))
            || (found.Some? && ev.remote.Some? && Holds(ev.remote.value, found.value.0.id) && plan == Finish(w))
  {
    var plan := EnrollWaitParentPlan(cfg, now, zone, w, ev);
    if plan.Persist? && plan.edit.Put? {
      assert plan == Go(w, plan.edit.x) && ParentMove(w, plan.edit.x);
    }
  }

  /** The registrar holds exactly the enrolled key: the zone is between workflows. */
  lemma EnrolledSteady(w: Workflow, e: Env, m: Time, now: Time, z: int, k: int)
    requires GoodEnroll(w, e, m, now, z, k) && w.phase.EnrollWaitParent? && Claim(e.remote) == {k}
    ensures Steady(e, m, now)
  {
    assert {k, k} == {k};
    assert Trust(e, m, k, now);
    assert SteadyAt(e, m, z, k, now);
  }

  lemma EnrollWaitParentSafe(cfg: Config, now: Time, mem: State, disk: State, e: Env, zone: Zone, w: Workflow,
                             ev: Evidence)
    requires Handling(cfg, now, mem, disk, e, w) && w.kind.Enroll? && w.phase.EnrollWaitParent? && Truthful(ev, e)
    ensures Safe(cfg, w.zone, now, mem, disk, e, EnrollWaitParentPlan(cfg, now, zone, w, ev))
  {
    EnrollWaitParentShape(cfg, now, zone, w, ev);
    var plan := EnrollWaitParentPlan(cfg, now, zone, w, ev);
    if plan == Stop(w) {
      SafeStop(cfg, now, mem, disk, e, w);
    } else if plan == Fail(w) {
      SafeFail(cfg, now, mem, disk, e, w);
    } else if x :| plan == Go(w, x) && ParentMove(w, x) {
      ParentMoveGood(w, x, e, cfg.margin, now);
      SafeGo(cfg, now, mem, disk, e, w, x);
    } else {
      var z, k :| GoodEnroll(w, e, cfg.margin, now, z, k);
      EnrollmentKeys(cfg, ev.keys, w, e, now, z, k);
      EnrolledSteady(w, e, cfg.margin, now, z, k);
      SafeFinish(cfg, now, mem, disk, e, w);
    }
  }
}
