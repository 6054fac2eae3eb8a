/** Writing records of a zone: one at a time, or by a Trigger. Each keeps the zone invariant. */
module RecordWrites {
  import opened Model
  import opened Inventory
  import opened Edits
  import opened Plans
  import opened World
  import opened Facts
  import opened Good
  import opened Races
  import opened Safety

  // ---- writing one record ----------------------------------------------------------------

  function With(r: Records, x: Workflow): Records {
    match x.kind case ZSK => r.(zsk := x) case KSK => r.(ksk := x) case Split => r.(split := x) case Enroll => r.(enroll := x)
  }

  /** A record may be written if it is good where it is the only active one, and starts the
      next instance from nothing where it is idle. */
  lemma WriteKeeps(cfg: Config, r: Records, x: Workflow, e: Env, now: Time)
    requires EnvInv(e, now) && WellFiled(r, x.zone) && ZoneInv(cfg, r, e, now)
    requires x.Active() && OnlyActive(With(r, x), x.kind) ==> GoodRecord(x, e, cfg.margin, now)
    requires !x.Active() ==> !RecordOf(r, x.kind).Active() && (!x.kind.Enroll? ==> Clean(x))
    ensures WellFiled(With(r, x), x.zone) && ZoneInv(cfg, With(r, x), e, now)
  {
    var q := With(r, x);
    assert RecordOf(q, x.kind) == x;
    forall other: Kind | other != x.kind
      ensures RecordOf(q, other) == RecordOf(r, other)
    {}
    assert RecordOf(q, ZSK) == q.zsk && RecordOf(q, KSK) == q.ksk && RecordOf(q, Split) == q.split && RecordOf(q, Enroll) == q.enroll;
    if NoneActive(q) {
      assert RecordOf(r, ZSK) == r.zsk && RecordOf(r, KSK) == r.ksk && RecordOf(r, Split) == r.split && RecordOf(r, Enroll) == r.enroll;
      assert NoneActive(r);
    }
    forall kind: Kind | OnlyActive(q, kind)
      ensures GoodRecord(RecordOf(q, kind), e, cfg.margin, now)
    {
      if kind != x.kind {
        forall other: Kind | other != kind
          ensures !RecordOf(r, other).Active()
        {
          assert !RecordOf(q, other).Active();
        }
        assert OnlyActive(r, kind);
      }
    }
  }

  lemma BlockedGood(w: Workflow, e: Env, m: Time, now: Time)
    requires !w.kind.Split? && SafeEnv(e, m, now)
    ensures GoodRecord(BlockedRecord(w), e, m, now)
  {}

  /** The zone has one active key, a CSK, exactly when its scheme says so. */
  lemma CskSteady(e: Env, m: Time, now: Time, ks: seq<Key>, z: int, k: int)
    requires EnvInv(e, now) && Lists(ks, e.keys) && KeyScheme(ks).CskScheme? && SteadyAt(e, m, z, k, now)
    ensures z == k
  {
    forall i | i in Active(e.keys)
      ensures e.keys[i] in ActiveOf(ks, CskType)
    {
      var key := e.keys[i];
      assert key in ks;
      assert key in ActiveOf(ks, key.keyType);
    }
    assert e.keys[z] in ActiveOf(ks, CskType) && e.keys[k] in ActiveOf(ks, CskType);
  }

  /** A new rotation begins in a zone between workflows. */
  lemma StartGood(w: Workflow, e: Env, m: Time, now: Time, manual: bool, idem: string, ks: seq<Key>)
    requires Clean(w) && !w.kind.Enroll? && EnvInv(e, now) && Steady(e, m, now)
    requires w.kind.Split? ==> Lists(ks, e.keys) && KeyScheme(ks).CskScheme?
    ensures GoodRecord(Started(w, now, manual, idem), e, m, now)
  {
    var x := Started(w, now, manual, idem);
    var z, k :| SteadyAt(e, m, z, k, now);
    match w.kind
    case ZSK => assert GoodZsk(x, e, m, now, z, k);
    case KSK => assert GoodKsk(x, e, m, now, z, k);
    case Split =>
      CskSteady(e, m, now, ks, z, k);
      assert GoodSplit(x, e, m, now, z);
    case Enroll =>
  }

  lemma SameZone(cfg: Config, s: State, t: State, y: string, e: Env, now: Time)
    requires StateInv(cfg, s, y, e, now)
    requires forall kind: Kind :: Lookup(t, WorkflowId(y, kind)) == Lookup(s, WorkflowId(y, kind))
    ensures RecordsOf(t, y) == RecordsOf(s, y) && StateInv(cfg, t, y, e, now)
  {
    assert Lookup(t, WorkflowId(y, ZSK)) == Lookup(s, WorkflowId(y, ZSK));
    assert Lookup(t, WorkflowId(y, KSK)) == Lookup(s, WorkflowId(y, KSK));
    assert Lookup(t, WorkflowId(y, Split)) == Lookup(s, WorkflowId(y, Split));
    assert Lookup(t, WorkflowId(y, Enroll)) == Lookup(s, WorkflowId(y, Enroll));
  }

  /** One record x of zone y is written, all others of the zone stay. */
  lemma OneRecord(cfg: Config, s: State, t: State, y: string, x: Workflow, e: Env, now: Time)
    requires EnvInv(e, now) && StateInv(cfg, s, y, e, now) && x.zone == y
    requires forall kind: Kind :: Lookup(t, WorkflowId(y, kind)) == if kind == x.kind then x else Lookup(s, WorkflowId(y, kind))
    requires x.Active() && OnlyActive(With(RecordsOf(s, y), x), x.kind) ==> GoodRecord(x, e, cfg.margin, now)
    requires !x.Active() ==> !RecordOf(RecordsOf(s, y), x.kind).Active() && (!x.kind.Enroll? ==> Clean(x))
    ensures StateInv(cfg, t, y, e, now)
  {
    assert Lookup(t, WorkflowId(y, ZSK)) == With(RecordsOf(s, y), x).zsk;
    assert Lookup(t, WorkflowId(y, KSK)) == With(RecordsOf(s, y), x).ksk;
    assert Lookup(t, WorkflowId(y, Split)) == With(RecordsOf(s, y), x).split;
    assert Lookup(t, WorkflowId(y, Enroll)) == With(RecordsOf(s, y), x).enroll;
    WriteKeeps(cfg, RecordsOf(s, y), x, e, now);
  }

  // ---- Triggers --------------------------------------------------------------------------

  /** The listing behind a trigger was truthful for every zone it names. */
  lemma TriggerKeeps(cfg: Config, now: Time, s: State, t: State, req: Request, y: string, e: Env)
    requires EnvInv(e, now) && StateInv(cfg, s, y, e, now) && !req.kind.Enroll?
    requires Apply(cfg, now, TriggerEdit(req), s) == Some(t)
    requires y in req.zones && req.kind.Split? ==> y in req.lists && Lists(req.lists[y], e.keys) && KeyScheme(req.lists[y]).CskScheme?
    ensures StateInv(cfg, t, y, e, now)
  {
    TriggerZone(cfg, now, s, t, req, y);
    if req.idem !in s.idempotency && y in req.zones {
      var r := RecordsOf(s, y);
      var w := RecordOf(r, req.kind);
      assert NoneActive(r);
      assert w == Lookup(s, WorkflowId(y, req.kind)) && w.Id() == WorkflowId(y, req.kind);
      StartGood(w, e, cfg.margin, now, true, req.idem, if req.kind.Split? then req.lists[y] else []);
      OneRecord(cfg, s, t, y, Started(w, now, true, req.idem), e, now);
    } else {
      SameZone(cfg, s, t, y, e, now);
    }
  }
}
