/** Prepublish: choosing the old key, creating or adopting its replacement. */
module PrepublishSafety {
  import opened Model
  import opened Inventory
  import opened Edits
  import opened Plans
  import opened World
  import opened Facts
  import opened Good
  import opened Safety
  import opened Listing

  /** Nothing the slots record matters to the zone before publication has been observed. */
  ghost predicate Early(w: Workflow, x: Workflow) {
    && x.Id() == w.Id() && x.oldKey == w.oldKey
    && (x.phase.Prepublish? || (x.phase.WaitPublish? && x.evidenceAt == UNSET))
  }

  lemma EarlyGood(w: Workflow, x: Workflow, e: Env, m: Time, now: Time)
    requires GoodRecord(w, e, m, now) && w.phase.Prepublish? && w.oldKey != 0 && Early(w, x)
    ensures GoodRecord(x, e, m, now)
  {
    match w.kind
    case ZSK =>
      var z, k :| GoodZsk(w, e, m, now, z, k);
      assert GoodZsk(x, e, m, now, z, k);
    case KSK =>
      var z, k :| GoodKsk(w, e, m, now, z, k);
      assert GoodKsk(x, e, m, now, z, k);
    case Split =>
      var z :| GoodSplit(w, e, m, now, z);
      assert GoodSplit(x, e, m, now, z);
    case Enroll =>
  }

  /** A created key that is inactive, or active and key-signing, disturbs nothing. */
  lemma OpeningCreated(e: Env, now: Time, m: Time, z: int, k: int, role: KeyType, active: bool, o: Outcome)
    requires EnvInv(e, now) && Opening(e, m, z, k, now)
    requires CreateCall(e, now, role, active, o).Some? && (active ==> !role.ZskType?)
    ensures Opening(CreateCall(e, now, role, active, o).value, m, z, k, now)
  {
    var e2 := CreateCall(e, now, role, active, o).value;
    Creating(e, now, role, active, o);
    Carry(e, e2, m, now);
    CarryTrust(e, e2, m, now);
    Signers(e2, now);
    assert z in e2.cur.zs;
    assert z in e2.cur.zs * {z};
  }

  lemma EarlyCreated(w: Workflow, e: Env, m: Time, now: Time, role: KeyType, active: bool, o: Outcome)
    requires EnvInv(e, now) && GoodRecord(w, e, m, now) && w.phase.Prepublish? && w.oldKey != 0
    requires CreateCall(e, now, role, active, o).Some?
    requires active ==> !role.ZskType? && !w.kind.ZSK?
    ensures EnvInv(CreateCall(e, now, role, active, o).value, now)
    ensures GoodRecord(w, CreateCall(e, now, role, active, o).value, m, now)
  {
    var e2 := CreateCall(e, now, role, active, o).value;
    Creating(e, now, role, active, o);
    match w.kind
    case ZSK =>
      var z, k :| GoodZsk(w, e, m, now, z, k);
      OpeningCreated(e, now, m, z, k, role, active, o);
      assert GoodZsk(w, e2, m, now, z, k);
    case KSK =>
      var z, k :| GoodKsk(w, e, m, now, z, k);
      OpeningCreated(e, now, m, z, k, role, active, o);
      assert GoodKsk(w, e2, m, now, z, k);
    case Split =>
      var z :| GoodSplit(w, e, m, now, z);
      OpeningCreated(e, now, m, z, z, role, active, o);
      assert GoodSplit(w, e2, m, now, z);
    case Enroll =>
  }

  lemma SlotSafe(cfg: Config, now: Time, mem: State, disk: State, e: Env, w: Workflow, zskSlot: bool, id: int)
    requires Handling(cfg, now, mem, disk, e, w) && w.phase.Prepublish? && w.oldKey != 0
    ensures Safe(cfg, w.zone, now, mem, disk, e, Go(w, Filled(w, now, zskSlot, id)))
  {
    var x := Filled(w, now, zskSlot, id);
    EarlyGood(w, x, e, cfg.margin, now);
    SafeGo(cfg, now, mem, disk, e, w, x);
  }

  lemma AdoptOrCreateSafe(cfg: Config, now: Time, mem: State, disk: State, e: Env, w: Workflow, keys: seq<Key>,
                          role: KeyType, algorithm: string, active: bool, zskSlot: bool)
    requires Handling(cfg, now, mem, disk, e, w) && w.phase.Prepublish? && w.oldKey != 0
    requires active ==> !role.ZskType? && !w.kind.ZSK?
    ensures Safe(cfg, w.zone, now, mem, disk, e, AdoptOrCreate(cfg, now, w, keys, role, algorithm, active, zskSlot))
  {
    var found := Adoptable(cfg, w, keys, role, algorithm, active, zskSlot);
    SafeFail(cfg, now, mem, disk, e, w);
    if found.Some? && |found.value| == 1 {
      SlotSafe(cfg, now, mem, disk, e, w, zskSlot, found.value[0].id);
    } else if found.Some? && |found.value| == 0 && Marker(w, zskSlot) == UNSET {
      var x := Marked(w, zskSlot, now);
      EarlyGood(w, x, e, cfg.margin, now);
      var s := WithRecord(mem, x);
      var ok := Create(x, role, algorithm, active, zskSlot);
      if Handling(cfg, now, s, s, e, x) {
        CreateSafe(cfg, now, s, s, e, x, role, algorithm, active, zskSlot);
      }
      SafeMark(cfg, now, mem, disk, e, w, MarkCreate(w, zskSlot), x, ok);
    }
  }

  lemma CreateSafe(cfg: Config, now: Time, mem: State, disk: State, e: Env, w: Workflow,
                   role: KeyType, algorithm: string, active: bool, zskSlot: bool)
    requires Handling(cfg, now, mem, disk, e, w) && w.phase.Prepublish? && w.oldKey != 0
    requires active ==> !role.ZskType? && !w.kind.ZSK?
    ensures Safe(cfg, w.zone, now, mem, disk, e, Create(w, role, algorithm, active, zskSlot))
  {
    forall o | CreateCall(e, now, role, active, o).Some?
      ensures var e2 := CreateCall(e, now, role, active, o).value;
              && Handling(cfg, now, mem, disk, e2, w)
              && forall reply :: Safe(cfg, w.zone, now, mem, disk, e2, AfterCreate(cfg, now, w, role, algorithm, active, zskSlot, reply))
    {
      var e2 := CreateCall(e, now, role, active, o).value;
      EarlyCreated(w, e, cfg.margin, now, role, active, o);
      StillHandling(cfg, now, mem, disk, e, e2, w);
      SafeFail(cfg, now, mem, disk, e2, w);
      forall reply: Option<Key>
        ensures Safe(cfg, w.zone, now, mem, disk, e2, AfterCreate(cfg, now, w, role, algorithm, active, zskSlot, reply))
      {
        if reply.Some? {
          SlotSafe(cfg, now, mem, disk, e2, w, zskSlot, reply.value.id);
        }
      }
    }
    SafeCreate(cfg, now, mem, disk, e, w, role, algorithm, active, zskSlot);
  }

  /** The one active key with the wanted label is the one the zone relies on. */
  lemma ChosenGood(w: Workflow, x: Workflow, e: Env, m: Time, now: Time, keys: seq<Key>)
    requires EnvInv(e, now) && GoodRecord(w, e, m, now) && w.phase.Prepublish? && w.oldKey == 0
    requires Lists(keys, e.keys)
    requires var p := ExactlyOneActive(keys, if w.kind.Split? then CskType else RoleOf(w.kind));
             p.Some? && x.Id() == w.Id() && x.phase.Prepublish? && x.oldKey == p.value.id
    ensures GoodRecord(x, e, m, now)
  {
    OneActive(keys, e.keys, if w.kind.Split? then CskType else RoleOf(w.kind));
    match w.kind
    case ZSK =>
      var z, k :| GoodZsk(w, e, m, now, z, k);
      assert GoodZsk(x, e, m, now, z, k);
    case KSK =>
      var z, k :| GoodKsk(w, e, m, now, z, k);
      assert GoodKsk(x, e, m, now, z, k);
    case Split =>
      var z :| GoodSplit(w, e, m, now, z);
      assert GoodSplit(x, e, m, now, z);
    case Enroll =>
  }

  lemma ChooseSafe(cfg: Config, now: Time, mem: State, disk: State, e: Env, w: Workflow, ev: Evidence)
    requires Handling(cfg, now, mem, disk, e, w) && w.phase.Prepublish? && w.oldKey == 0 && Truthful(ev, e)
    ensures Safe(cfg, w.zone, now, mem, disk, e, PrepublishPlan(cfg, now, w, ev))
  {
    var prior := ExactlyOneActive(ev.keys, if w.kind.Split? then CskType else RoleOf(w.kind));
    if prior.None? {
      SafeStop(cfg, now, mem, disk, e, w);
    } else {
      var x := Moved(w, now, Prepublish, now).(oldKey := prior.value.id);
      ChosenGood(w, x, e, cfg.margin, now, ev.keys);
      SafeGo(cfg, now, mem, disk, e, w, x);
    }
  }

  lemma PrepublishSafe(cfg: Config, now: Time, mem: State, disk: State, e: Env, w: Workflow, ev: Evidence)
    requires Handling(cfg, now, mem, disk, e, w) && w.phase.Prepublish? && Truthful(ev, e)
    ensures Safe(cfg, w.zone, now, mem, disk, e, PrepublishPlan(cfg, now, w, ev))
  {
    var prior := ById(ev.keys, w.oldKey);
    if w.oldKey == 0 {
      ChooseSafe(cfg, now, mem, disk, e, w, ev);
    } else if prior.None? {
      SafeStop(cfg, now, mem, disk, e, w);
    } else {
      var algorithm := if prior.value.algorithm == "" then cfg.algorithm else prior.value.algorithm;
      EarlyMovesSafe(cfg, now, mem, disk, e, w);
      if w.kind.Split? && w.parentMode.NoMode? {
        SafeStop(cfg, now, mem, disk, e, w);
        SafeFail(cfg, now, mem, disk, e, w);
        assert PrepublishPlan(cfg, now, w, ev) == ClassifyParent(now, w, prior.value, ev);
      } else if w.newKey == 0 {
        AdoptOrCreateSafe(cfg, now, mem, disk, e, w, ev.keys, RoleOf(w.kind), algorithm, !w.kind.ZSK?, false);
      } else if w.kind.Split? && w.newZsk == 0 {
        AdoptOrCreateSafe(cfg, now, mem, disk, e, w, ev.keys, ZskType, algorithm, false, true);
      }
    }
  }

  lemma EarlyMovesSafe(cfg: Config, now: Time, mem: State, disk: State, e: Env, w: Workflow)
    requires Handling(cfg, now, mem, disk, e, w) && w.phase.Prepublish? && w.oldKey != 0
    ensures forall mode :: Safe(cfg, w.zone, now, mem, disk, e, Go(w, Moved(w, now, Prepublish, now).(parentMode := mode)))
    ensures Safe(cfg, w.zone, now, mem, disk, e, Go(w, Moved(w, now, WaitPublish, now).(evidenceAt := UNSET)))
  {
    forall mode
      ensures Safe(cfg, w.zone, now, mem, disk, e, Go(w, Moved(w, now, Prepublish, now).(parentMode := mode)))
    {
      EarlyGood(w, Moved(w, now, Prepublish, now).(parentMode := mode), e, cfg.margin, now);
      SafeGo(cfg, now, mem, disk, e, w, Moved(w, now, Prepublish, now).(parentMode := mode));
    }
    var x := Moved(w, now, WaitPublish, now).(evidenceAt := UNSET);
    EarlyGood(w, x, e, cfg.margin, now);
    SafeGo(cfg, now, mem, disk, e, w, x);
  }
}
