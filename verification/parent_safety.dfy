/** Replacing the parent's material, and waiting until no cache needs the old one. */
module ParentSafety {
  import opened Model
  import opened Inventory
  import opened Edits
  import opened Plans
  import opened World
  import opened Facts
  import opened Good
  import opened Safety
  import opened Listing

  predicate Asked(w: Workflow, remote: Remote) {
    if InitialSplit(w) then !remote.enabled && remote.material == [] else Holds(remote, w.oldKey)
  }

  function WithCtid(now: Time, w: Workflow): Workflow {
    Moved(w, now, ParentRemove, now).(reg := w.reg.(ctid := ReplaceCtid(w.zone, w.kind, w.startedAt)))
  }

  lemma ParentReplaceShape(now: Time, w: Workflow, ev: Evidence)
    ensures var plan := ParentReplacePlan(now, w, ev);
            || (plan == Stop(w) && !w.reg.ctid.NoCtid?)
            || plan == Fail(w)
            || (plan == Go(w, WithCtid(now, w)) && w.reg.ctid.NoCtid?)
            || (plan == Go(w, Moved(w, now, WaitParentRemove, now).(evidenceAt := UNSET)) && !w.reg.ctid.NoCtid?)
            || (plan == Persist(MarkReplace(w), Update(Requested(w, now), w.newKey), Fail(w))
                && ev.remote.Some? && Asked(w, ev.remote.value) && !w.reg.ctid.NoCtid? && w.reg.attemptedAt == UNSET)
  {}

  /** Within the parent phases only the listed fields matter to the zone. */
  lemma ParentRecord(w: Workflow, x: Workflow, e: Env, m: Time, now: Time)
    requires GoodRecord(w, e, m, now) && w.phase.ParentRemove? && x.Id() == w.Id() && SameIds(x, w)
    requires x.phase.ParentRemove? || (x.phase.WaitParentRemove? && x.evidenceAt == UNSET && (w.kind.Split? ==> !x.reg.ctid.NoCtid?))
    ensures GoodRecord(x, e, m, now)
  {
    if w.kind.KSK? {
      var z, k :| GoodKsk(w, e, m, now, z, k);
      assert GoodKsk(x, e, m, now, z, k);
    } else if w.kind.Split? {
      var z :| GoodSplit(w, e, m, now, z);
      assert GoodSplit(x, e, m, now, z);
    }
  }

  /** Asking the registrar for the new key alone. */
  lemma RequestGood(w: Workflow, e: Env, m: Time, now: Time, remote: Remote)
    requires GoodRecord(w, e, m, now) && w.phase.ParentRemove? && remote == e.remote && Asked(w, remote)
    ensures GoodRecord(w, e.(pending := {w.newKey}), m, now)
  {
    var e2 := e.(pending := {w.newKey});
    Carry(e, e2, m, now);
    if w.kind.KSK? {
      var z, k :| GoodKsk(w, e, m, now, z, k);
      assert w.newKey !in Claim(e.remote);
      assert GoodKsk(w, e2, m, now, z, k);
    } else if w.kind.Split? {
      var z :| GoodSplit(w, e, m, now, z);
      assert w.newKey !in Claim(e.remote);
      assert GoodSplit(w, e2, m, now, z);
    }
  }

  lemma AcceptedSafe(cfg: Config, now: Time, mem: State, disk: State, e: Env, w: Workflow, reply: Option<Job>)
    requires Handling(cfg, now, mem, disk, e, w) && w.phase.ParentRemove? && !w.kind.Enroll? && !w.reg.ctid.NoCtid?
    ensures Safe(cfg, w.zone, now, mem, disk, e, AfterUpdate(now, w, reply))
  {
    SafeFail(cfg, now, mem, disk, e, w);
    if reply.Some? {
      var reg := w.reg.(stid := reply.value.stid, jobId := reply.value.id, jobStatus := reply.value.status);
      var y := Moved(w, now, WaitParentRemove, now).(reg := reg, evidenceAt := UNSET);
      ParentRecord(w, y, e, cfg.margin, now);
      SafeGo(cfg, now, mem, disk, e, w, y);
    }
  }

  lemma ParentRequestSafe(cfg: Config, now: Time, mem: State, disk: State, e: Env, w: Workflow, ev: Evidence)
    requires Handling(cfg, now, mem, disk, e, w) && w.phase.ParentRemove? && Truthful(ev, e)
    requires ev.remote.Some? && Asked(w, ev.remote.value) && !w.reg.ctid.NoCtid?
    ensures Safe(cfg, w.zone, now, mem, disk, e, Persist(MarkReplace(w), Update(Requested(w, now), w.newKey), Fail(w)))
  {
    var x := Requested(w, now);
    var s := WithRecord(mem, x);
    var e2 := e.(pending := {w.newKey});
    ParentRecord(w, x, e, cfg.margin, now);
    if Handling(cfg, now, s, s, e, x) {
      RequestGood(x, e, cfg.margin, now, ev.remote.value);
      StillHandling(cfg, now, s, s, e, e2, x);
      forall reply: Option<Job>
        ensures Safe(cfg, w.zone, now, s, s, e2, AfterUpdate(now, x, reply))
      {
        AcceptedSafe(cfg, now, s, s, e2, x, reply);
      }
      SafeUpdate(cfg, now, s, s, e, x, w.newKey);
    }
    SafeMark(cfg, now, mem, disk, e, w, MarkReplace(w), x, Update(x, w.newKey));
  }

  lemma ParentReplaceSafe(cfg: Config, now: Time, mem: State, disk: State, e: Env, w: Workflow, ev: Evidence)
    requires Handling(cfg, now, mem, disk, e, w) && w.phase.ParentRemove? && Truthful(ev, e)
    ensures Safe(cfg, w.zone, now, mem, disk, e, ParentReplacePlan(now, w, ev))
  {
    ParentReplaceShape(now, w, ev);
    var plan := ParentReplacePlan(now, w, ev);
    if plan == Stop(w) {
      SafeStop(cfg, now, mem, disk, e, w);
    } else if plan == Fail(w) {
      SafeFail(cfg, now, mem, disk, e, w);
    } else if plan == Go(w, WithCtid(now, w)) {
      ParentRecord(w, WithCtid(now, w), e, cfg.margin, now);
      SafeGo(cfg, now, mem, disk, e, w, WithCtid(now, w));
    } else if plan == Go(w, Moved(w, now, WaitParentRemove, now).(evidenceAt := UNSET)) {
      var x := Moved(w, now, WaitParentRemove, now).(evidenceAt := UNSET);
      ParentRecord(w, x, e, cfg.margin, now);
      SafeGo(cfg, now, mem, disk, e, w, x);
    } else {
      ParentRequestSafe(cfg, now, mem, disk, e, w, ev);
    }
  }

  // ---- waiting for the parent ----------------------------------------------------------

  function JobSettled(now: Time, w: Workflow): Workflow {
    Moved(w, now, w.phase, now).(reg := w.reg.(jobStatus := Succeeded))
  }

  function DsSeen(cfg: Config, now: Time, w: Workflow, ttl: Ttl): Workflow {
    Moved(w, now, w.phase, now + Max(ttl, cfg.minParentWait) + cfg.margin).(dsTtl := ttl, evidenceAt := now)
  }

  function ParentDone(now: Time, w: Workflow): Workflow {
    Moved(w, now, if w.kind.Split? then ActivateNew else DeactivateOld, now).(evidenceAt := UNSET)
  }

  lemma WaitParentReplaceShape(cfg: Config, now: Time, w: Workflow, ev: Evidence)
    requires w.phase.WaitParentRemove?
    ensures var plan := WaitParentReplacePlan(cfg, now, w, ev);
            || plan == Stop(w) || plan == Fail(w) || (AwaitsJob(w) && plan == Go(w, JobSettled(now, w)))
            || (w.newKey in ev.authDs && w.evidenceAt == UNSET && plan == Go(w, DsSeen(cfg, now, w, ev.authDs[w.newKey])))
            || (w.evidenceAt != UNSET && plan == Go(w, ParentDone(now, w)))
  {}

  lemma JobSettledGood(w: Workflow, e: Env, m: Time, now: Time)
    requires GoodRecord(w, e, m, now) && w.phase.WaitParentRemove? && w.nextAt <= now
    ensures GoodRecord(JobSettled(now, w), e, m, now)
  {
    var x := JobSettled(now, w);
    Later(e, m, w.nextAt, now);
    if w.kind.KSK? {
      var z, k :| GoodKsk(w, e, m, now, z, k);
      assert GoodKsk(x, e, m, now, z, k);
    } else if w.kind.Split? {
      var z :| GoodSplit(w, e, m, now, z);
      assert GoodSplit(x, e, m, now, z);
    }
  }

  /** The parent serves the new key alone: other DS RRsets are gone when the wait ends. */
  lemma DsSeenGood(cfg: Config, w: Workflow, e: Env, now: Time, ttl: Ttl)
    requires EnvInv(e, now) && GoodRecord(w, e, cfg.margin, now) && w.phase.WaitParentRemove?
    requires e.cur.ds == {w.newKey} && ttl >= e.cur.dsTtl
    ensures GoodRecord(DsSeen(cfg, now, w, ttl), e, cfg.margin, now)
  {
    var m, x := cfg.margin, DsSeen(cfg, now, w, ttl);
    SeenDs(e, m, w.newKey, now, ttl, x.nextAt);
    if w.kind.KSK? {
      var z, k :| GoodKsk(w, e, m, now, z, k);
      assert Settling(e, m, w.newKey, x.nextAt);
      assert GoodKsk(x, e, m, now, z, k);
    } else if w.kind.Split? {
      var z :| GoodSplit(w, e, m, now, z);
      assert Settling(e, m, w.newKey, x.nextAt);
      assert GoodSplit(x, e, m, now, z);
    }
  }

  lemma ParentDoneGood(w: Workflow, e: Env, m: Time, now: Time)
    requires GoodRecord(w, e, m, now) && w.phase.WaitParentRemove? && w.evidenceAt != UNSET && w.nextAt <= now
    ensures GoodRecord(ParentDone(now, w), e, m, now)
  {
    var x := ParentDone(now, w);
    Later(e, m, w.nextAt, now);
    if w.kind.KSK? {
      var z, k :| GoodKsk(w, e, m, now, z, k);
      assert GoodKsk(x, e, m, now, z, k);
    } else if w.kind.Split? {
      var z :| GoodSplit(w, e, m, now, z);
      WiderBase(e, m, w.oldKey, w.newZsk, now);
      assert w.oldKey in Active(e.keys);
      assert GoodSplit(x, e, m, now, z);
    }
  }

  lemma WaitParentReplaceSafe(cfg: Config, now: Time, mem: State, disk: State, e: Env, w: Workflow, ev: Evidence)
    requires Handling(cfg, now, mem, disk, e, w) && w.phase.WaitParentRemove? && Truthful(ev, e)
    ensures Safe(cfg, w.zone, now, mem, disk, e, WaitParentReplacePlan(cfg, now, w, ev))
  {
    WaitParentReplaceShape(cfg, now, w, ev);
    var plan := WaitParentReplacePlan(cfg, now, w, ev);
    if plan == Stop(w) {
      SafeStop(cfg, now, mem, disk, e, w);
    } else if plan == Fail(w) {
      SafeFail(cfg, now, mem, disk, e, w);
    } else if plan == Go(w, JobSettled(now, w)) {
      JobSettledGood(w, e, cfg.margin, now);
      SafeGo(cfg, now, mem, disk, e, w, JobSettled(now, w));
    } else if w.evidenceAt == UNSET {
      DsSeenGood(cfg, w, e, now, ev.authDs[w.newKey]);
      SafeGo(cfg, now, mem, disk, e, w, DsSeen(cfg, now, w, ev.authDs[w.newKey]));
    } else {
      ParentDoneGood(w, e, cfg.margin, now);
      SafeGo(cfg, now, mem, disk, e, w, ParentDone(now, w));
    }
  }
}
