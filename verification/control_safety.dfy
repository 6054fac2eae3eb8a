/** Bootstrap and the control calls keep the zone invariant of every zone. */
module ControlSafety {
  import opened Model
  import opened Inventory
  import opened Edits
  import opened Plans
  import opened World
  import opened Facts
  import opened Good
  import opened Safety
  import opened Races
  import opened RecordWrites
  import opened Logs
  import opened ReconcileSafety

  lemma AloneMeansNone(r: Records, x: Workflow)
    requires !RecordOf(r, x.kind).Active() && OnlyActive(With(r, x), x.kind)
    ensures NoneActive(r)
  {
    var q := With(r, x);
    assert RecordOf(r, ZSK) == r.zsk && RecordOf(r, KSK) == r.ksk && RecordOf(r, Split) == r.split && RecordOf(r, Enroll) == r.enroll;
    forall kind: Kind | kind != x.kind
      ensures !RecordOf(r, kind).Active()
    {
      assert RecordOf(q, kind) == RecordOf(r, kind);
    }
  }

  // ---- bootstrap -------------------------------------------------------------------------

  lemma IdleKeeps(cfg: Config, s: State, id: WorkflowId, y: string, e: Env, now: Time)
    requires EnvInv(e, now) && StateInv(cfg, s, y, e, now)
    ensures StateInv(cfg, AddIdle(s, id, now), y, e, now)
  {
    var t := AddIdle(s, id, now);
    if id !in s.workflows && id.zone == y {
      var x := Fresh(id).(completedAt := now);
      assert Lookup(s, id) == Fresh(id);
      assert RecordOf(RecordsOf(s, y), id.kind) == Fresh(id);
      OneRecord(cfg, s, t, y, x, e, now);
    } else {
      SameZone(cfg, s, t, y, e, now);
    }
  }

  lemma BootKeeps(cfg: Config, now: Time, s: State, zone: Zone, keys: seq<Key>, y: string, e: Env)
    requires EnvInv(e, now) && StateInv(cfg, s, y, e, now)
    ensures StateInv(cfg, Bootstrap(cfg, s, zone, keys, now), y, e, now)
  {
    IdleKeeps(cfg, s, WorkflowId(zone.name, ZSK), y, e, now);
    IdleKeeps(cfg, s, WorkflowId(zone.name, Split), y, e, now);
    IdleKeeps(cfg, AddIdle(s, WorkflowId(zone.name, ZSK), now), WorkflowId(zone.name, KSK), y, e, now);
    var u := EnsureRecords(s, zone.name, KeyScheme(keys), now);
    if Discovers(cfg, u, zone) {
      FirstKeeps(cfg, now, u, zone, keys, y, e);
    }
  }

  lemma FirstKeeps(cfg: Config, now: Time, s: State, zone: Zone, keys: seq<Key>, y: string, e: Env)
    requires EnvInv(e, now) && StateInv(cfg, s, y, e, now) && Discovers(cfg, s, zone)
    ensures StateInv(cfg, WithRecord(s, FirstEnrollment(cfg, s, zone, keys, now)), y, e, now)
  {
    var x := FirstEnrollment(cfg, s, zone, keys, now);
    var t := WithRecord(s, x);
    FirstId(cfg, s, zone, keys, now);
    if zone.name == y {
      var r := RecordsOf(s, y);
      assert RecordOf(r, Enroll) == Fresh(WorkflowId(y, Enroll));
      if x.Active() && OnlyActive(With(r, x), Enroll) {
        AloneMeansNone(r, x);
        var z, k :| SteadyAt(e, cfg.margin, z, k, now);
        if !x.phase.Blocked? {
          assert GoodEnroll(x, e, cfg.margin, now, z, k);
        }
      }
      OneRecord(cfg, s, t, y, x, e, now);
    } else {
      SameZone(cfg, s, t, y, e, now);
    }
  }

  // ---- control calls -----------------------------------------------------------------------

  lemma ResumedGood(w: Workflow, e: Env, m: Time, now: Time)
    requires w.kind.Split? && w.phase.Blocked? && w.oldKey != 0 && w.reg.ctid.NoCtid? && GoodRecord(w, e, m, now)
    ensures GoodRecord(Resumed(w, now), e, m, now)
  {
    assert GoodSplit(Resumed(w, now), e, m, now, w.oldKey);
  }

  lemma ResumeZone(cfg: Config, now: Time, s: State, t: State, items: seq<Workflow>, idem: string, p: string, y: string)
    requires Apply(cfg, now, ResumeAll(items, idem, p), s) == Some(t) && forall w <- items :: w.kind.Split?
    ensures var hit := idem !in s.idempotency && exists w <- items :: w.Id() == WorkflowId(y, Split);
            forall kind: Kind :: Lookup(t, WorkflowId(y, kind))
              == if hit && kind.Split? then Resumed(Lookup(s, WorkflowId(y, kind)), now) else Lookup(s, WorkflowId(y, kind))
  {
    var u := ResumeEach(s, items, now);
    forall kind: Kind
      ensures Lookup(t, WorkflowId(y, kind))
           == if idem !in s.idempotency && (exists w <- items :: w.Id() == WorkflowId(y, Split)) && kind.Split?
              then Resumed(Lookup(s, WorkflowId(y, kind)), now) else Lookup(s, WorkflowId(y, kind))
    {
      ResumedEach(s, items, now, WorkflowId(y, kind));
      assert idem !in s.idempotency ==> Lookup(t, WorkflowId(y, kind)) == Lookup(u, WorkflowId(y, kind));
    }
  }

  /** Over the only active record of its kind, a rewrite leaves it the only active one. */
  lemma StillAlone(r: Records, x: Workflow)
    requires RecordOf(r, x.kind).Active() && OnlyActive(With(r, x), x.kind)
    ensures OnlyActive(r, x.kind)
  {
    forall other: Kind | other != x.kind
      ensures !RecordOf(r, other).Active()
    {
      assert RecordOf(With(r, x), other) == RecordOf(r, other);
    }
  }

  lemma ResumeKeeps(cfg: Config, now: Time, s: State, t: State, items: seq<Workflow>, idem: string, p: string,
                    y: string, e: Env)
    requires EnvInv(e, now) && StateInv(cfg, s, y, e, now) && forall w <- items :: Resumable(s, w)
    requires Apply(cfg, now, ResumeAll(items, idem, p), s) == Some(t)
    ensures StateInv(cfg, t, y, e, now)
  {
    ResumeZone(cfg, now, s, t, items, idem, p, y);
    var id := WorkflowId(y, Split);
    if idem !in s.idempotency && exists w <- items :: w.Id() == id {
      var w := Lookup(s, id);
      var r := RecordsOf(s, y);
      assert w == RecordOf(r, Split) && w.Id() == id;
      var x := Resumed(w, now);
      if OnlyActive(With(r, x), Split) {
        StillAlone(r, x);
        ResumedGood(w, e, cfg.margin, now);
      }
      OneRecord(cfg, s, t, y, x, e, now);
    } else {
      SameZone(cfg, s, t, y, e, now);
    }
  }

  lemma AttestedGood(cfg: Config, w: Workflow, ttl: int, e: Env, m: Time, now: Time)
    requires w.kind.Split? && w.phase.WaitNewSignature? && GoodRecord(w, e, m, now)
    ensures GoodRecord(Attested(cfg, w, ttl, now), e, m, now)
  {
    var z :| GoodSplit(w, e, m, now, z);
    assert GoodSplit(Attested(cfg, w, ttl, now), e, m, now, z);
  }

  lemma AttestKeeps(cfg: Config, now: Time, s: State, t: State, w: Workflow, ttl: int, idem: string, p: string,
                    y: string, e: Env)
    requires EnvInv(e, now) && StateInv(cfg, s, y, e, now) && w.kind.Split? && Lookup(s, w.Id()) == w
    requires Apply(cfg, now, Attest(w, ttl, idem, p), s) == Some(t)
    ensures StateInv(cfg, t, y, e, now)
  {
    if idem !in s.idempotency && w.zone == y {
      var x := Attested(cfg, w, ttl, now);
      var r := RecordsOf(s, y);
      assert RecordOf(r, Split) == w;
      if OnlyActive(With(r, x), Split) {
        StillAlone(r, x);
        AttestedGood(cfg, w, ttl, e, cfg.margin, now);
      }
      OneRecord(cfg, s, t, y, x, e, now);
    } else {
      SameZone(cfg, s, t, y, e, now);
    }
  }

  lemma ArmZone(cfg: Config, now: Time, s: State, t: State, listing: seq<Zone>, idem: string, y: string)
    requires Apply(cfg, now, Arm(listing, idem), s) == Some(t)
    ensures var id := WorkflowId(y, Enroll);
            var hit := id in t.workflows && id !in s.workflows;
            && (hit ==> Lookup(t, id) == Tombstone(id, Lookup(t, id).zoneId, now))
            && forall kind: Kind :: !(hit && kind.Enroll?) ==> Lookup(t, WorkflowId(y, kind)) == Lookup(s, WorkflowId(y, kind))
  {
    var u := BaselineEach(s, listing, now);
    assert t.workflows == u.workflows;
    BaselinedEach(s, listing, now, WorkflowId(y, Enroll));
    forall kind: Kind | !kind.Enroll?
      ensures Lookup(t, WorkflowId(y, kind)) == Lookup(s, WorkflowId(y, kind))
    {
      BaselinedEach(s, listing, now, WorkflowId(y, kind));
    }
  }

  lemma ArmKeeps(cfg: Config, now: Time, s: State, t: State, listing: seq<Zone>, idem: string, y: string, e: Env)
    requires EnvInv(e, now) && StateInv(cfg, s, y, e, now)
    requires Apply(cfg, now, Arm(listing, idem), s) == Some(t)
    ensures StateInv(cfg, t, y, e, now)
  {
    ArmZone(cfg, now, s, t, listing, idem, y);
    var id := WorkflowId(y, Enroll);
    if id in t.workflows && id !in s.workflows {
      assert RecordOf(RecordsOf(s, y), Enroll) == Fresh(id);
      OneRecord(cfg, s, t, y, Lookup(t, id), e, now);
    } else {
      SameZone(cfg, s, t, y, e, now);
    }
  }

  lemma SweepKeeps(cfg: Config, now: Time, s: State, zone: string, y: string, e: Env)
    requires EnvInv(e, now) && StateInv(cfg, s, y, e, now)
    ensures StateInv(cfg, BlockState(cfg, s, WorkflowId(zone, Enroll), now), y, e, now)
  {
    if zone == y {
      BlockKeeps(cfg, s, y, Enroll, e, now);
    } else {
      SameZone(cfg, s, BlockState(cfg, s, WorkflowId(zone, Enroll), now), y, e, now);
    }
  }
}
