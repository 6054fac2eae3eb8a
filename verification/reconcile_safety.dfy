/** One whole reconciliation of a zone, and every control call, keep the zone invariant. */
module ReconcileSafety {
  import opened Model
  import opened Inventory
  import opened Edits
  import opened Plans
  import opened World
  import opened Facts
  import opened Good
  import opened Safety
  import opened PrepublishSafety
  import opened PublishSafety
  import opened ParentSafety
  import opened SigningSafety
  import opened EnrollSafety
  import opened Races
  import opened RecordWrites
  import opened Logs

  // ---- the handlers together -------------------------------------------------------------

  ghost predicate Holding(cfg: Config, now: Time, mem: State, disk: State, e: Env, w: Workflow) {
    && SiteInv(cfg, w.zone, now, Site(mem, disk, e, []))
    && RecordsOf(disk, w.zone) == RecordsOf(mem, w.zone)
    && Lookup(mem, w.Id()) == w && OnlyActive(RecordsOf(mem, w.zone), w.kind)
  }

  lemma DueHandling(cfg: Config, now: Time, mem: State, disk: State, e: Env, w: Workflow)
    requires Holding(cfg, now, mem, disk, e, w) && w.nextAt <= now
    ensures Handling(cfg, now, mem, disk, e, w)
  {
    assert RecordOf(RecordsOf(mem, w.zone), w.kind) == w;
  }

  lemma AdvanceSafe(cfg: Config, now: Time, mem: State, disk: State, e: Env, zone: Zone, w: Workflow, ev: Evidence,
                    armedAt: Time)
    requires Holding(cfg, now, mem, disk, e, w) && now > 0 && Truthful(ev, e)
    ensures Safe(cfg, w.zone, now, mem, disk, e, Advance(cfg, now, zone, w, ev, armedAt))
  {
    SafeRest(cfg, w.zone, now, mem, disk, e);
    if w.nextAt <= now {
      DueHandling(cfg, now, mem, disk, e, w);
      match w.phase
      case Prepublish => PrepublishSafe(cfg, now, mem, disk, e, w, ev);
      case WaitPublish => WaitPublishSafe(cfg, now, mem, disk, e, w, ev);
      case ActivateNew => ActivateNewSafe(cfg, now, mem, disk, e, w, ev);
      case WaitNewSignature => WaitNewSignatureSafe(cfg, now, mem, disk, e, w, ev);
      case DeactivateOld => DeactivateOldSafe(cfg, now, mem, disk, e, w, ev);
      case ParentRemove => ParentReplaceSafe(cfg, now, mem, disk, e, w, ev);
      case WaitParentRemove => WaitParentReplaceSafe(cfg, now, mem, disk, e, w, ev);
      case WaitRetire => WaitRetireSafe(cfg, now, mem, disk, e, w, ev);
      case DeleteOld => DeleteOldSafe(cfg, now, mem, disk, e, w, ev);
      case EnrollDiscovered => EnrollDiscoveredSafe(cfg, now, mem, disk, e, zone, w, ev);
      case EnrollWaitPublish => EnrollWaitPublishSafe(cfg, now, mem, disk, e, zone, w, ev);
      case EnrollParentAdd => EnrollParentAddSafe(cfg, now, mem, disk, e, zone, w, ev, armedAt);
      case EnrollWaitParent => EnrollWaitParentSafe(cfg, now, mem, disk, e, zone, w, ev);
      case Blocked =>
      case Idle =>
    }
  }

  // ---- the rest of reconcileZone ------------------------------------------------------------

  ghost predicate Accompanied(r: Records, kind: Kind) {
    exists other: Kind :: other != kind && RecordOf(r, other).Active()
  }

  /** Blocking one record: any but a split migration that is alone. */
  lemma BlockKeeps(cfg: Config, s: State, zone: string, kind: Kind, e: Env, now: Time)
    requires EnvInv(e, now) && StateInv(cfg, s, zone, e, now)
    requires kind.Split? ==> Accompanied(RecordsOf(s, zone), kind)
    ensures StateInv(cfg, BlockState(cfg, s, WorkflowId(zone, kind), now), zone, e, now)
  {
    var r := RecordsOf(s, zone);
    var w := RecordOf(r, kind);
    var x := BlockedRecord(w);
    if kind.Split? {
      var other: Kind :| other != kind && RecordOf(r, other).Active();
      assert RecordOf(With(r, x), other).Active();
    } else {
      BlockedGood(w, e, cfg.margin, now);
    }
    WriteKeeps(cfg, r, x, e, now);
    assert RecordsOf(BlockState(cfg, s, WorkflowId(zone, kind), now), zone) == With(r, x);
  }

  /** Where several workflows are active, one of them is blocked. */
  lemma BlockOnlySafe(cfg: Config, now: Time, zone: string, mem: State, disk: State, e: Env, kind: Kind)
    requires SiteInv(cfg, zone, now, Site(mem, disk, e, [])) && AnyActive(mem, zone)
    requires kind.Split? ==> Accompanied(RecordsOf(mem, zone), kind)
    ensures Safe(cfg, zone, now, mem, disk, e, BlockOnly(zone, kind))
  {
    var id := WorkflowId(zone, kind);
    var s := BlockState(cfg, mem, id, now);
    BlockKeeps(cfg, mem, zone, kind, e, now);
    SafeRest(cfg, zone, now, s, s, e);
    SafeRest(cfg, zone, now, mem, s, e);
    SafeRest(cfg, zone, now, mem, mem, e);
    SafeRest(cfg, zone, now, mem, disk, e);
    SafePersist(cfg, zone, now, mem, disk, e, Block(id), Rest, Rest);
  }

  // ---- zones without an active workflow -------------------------------------------------------

  lemma {:induction false} SettleKeeps(cfg: Config, zone: string, now: Time, site: Site, script: seq<Beat>)
    requires SiteInv(cfg, zone, now, site) && AllFit(script, zone, site.env)
    ensures SiteInv(cfg, zone, now, Settle(cfg, now, site, script).0)
    decreases |script|
  {
    if script != [] && script[0].Slips? {
      var req := script[0].req;
      var next := Apply(cfg, now, TriggerEdit(req), site.mem);
      if next.Some? && !req.kind.Enroll? {
        assert Grounded(req, zone, site.env);
        TriggerKeeps(cfg, now, site.mem, next.value, req, zone, site.env);
      }
      SettleKeeps(cfg, zone, now, Slipped(cfg, now, site, req), script[1..]);
    }
  }

  /** What a reconciliation may ask for in a zone without an active workflow. */
  predicate Opens(edit: Edit, zone: string) {
    edit == Block(WorkflowId(zone, ZSK)) || edit == Begin(zone, ZSK) || edit == Begin(zone, KSK)
  }

  lemma OpenKeeps(cfg: Config, now: Time, zone: string, edit: Edit, s: State, t: State, e: Env)
    requires EnvInv(e, now) && StateInv(cfg, s, zone, e, now) && Opens(edit, zone) && Apply(cfg, now, edit, s) == Some(t)
    ensures StateInv(cfg, t, zone, e, now)
  {
    if edit.Block? {
      BlockKeeps(cfg, s, zone, ZSK, e, now);
    } else {
      var r := RecordsOf(s, zone);
      var x := Started(RecordOf(r, edit.kind), now, false, "");
      StartGood(RecordOf(r, edit.kind), e, cfg.margin, now, false, "", []);
      WriteKeeps(cfg, r, x, e, now);
      assert RecordsOf(t, zone) == With(r, x);
    }
  }

  /** Even a Trigger that comes first leaves the update safe. */
  lemma OpenSafe(cfg: Config, now: Time, zone: string, mem: State, disk: State, e: Env, edit: Edit)
    requires SiteInv(cfg, zone, now, Site(mem, disk, e, [])) && !AnyActive(mem, zone) && Opens(edit, zone)
    ensures Safe(cfg, zone, now, mem, disk, e, Persist(edit, Rest, Rest))
  {
    forall site: Site, script: seq<Beat>
      | Alike(zone, mem, site.mem) && Alike(zone, disk, site.disk) && site.env == e && AllFit(script, zone, e)
      ensures EndsWell(cfg, zone, now, site, Persist(edit, Rest, Rest), script)
    {
      AlikeInv(cfg, zone, now, mem, disk, e, site);
      OpenEnds(cfg, now, zone, site, edit, script);
    }
  }

  lemma OpenEnds(cfg: Config, now: Time, zone: string, site: Site, edit: Edit, script: seq<Beat>)
    requires SiteInv(cfg, zone, now, site) && AllFit(script, zone, site.env) && Opens(edit, zone)
    ensures EndsWell(cfg, zone, now, site, Persist(edit, Rest, Rest), script)
  {
    SettleKeeps(cfg, zone, now, site, script);
    SettleEnv(cfg, now, site, script);
    Settled(cfg, now, site, Persist(edit, Rest, Rest), script);
    var (s, rest) := Settle(cfg, now, site, script);
    var next := Apply(cfg, now, edit, s.mem);
    if next.Some? {
      OpenKeeps(cfg, now, zone, edit, s.mem, next.value, s.env);
    }
  }

  lemma KindsCounted(s: State, zone: string)
    ensures var r := RecordsOf(s, zone);
            && |ActiveKinds(s, zone)| == One(r.zsk.Active()) + One(r.ksk.Active()) + One(r.split.Active()) + One(r.enroll.Active())
            && (forall kind <- ActiveKinds(s, zone) :: RecordOf(r, kind).Active())
  {}

  lemma ActiveOnes(s: State, zone: string)
    ensures var active := ActiveKinds(s, zone);
            var r := RecordsOf(s, zone);
            && (|active| == 0 <==> !AnyActive(s, zone))
            && (forall kind <- active :: RecordOf(r, kind).Active())
            && (|active| == 1 ==> OnlyActive(r, active[0]))
            && (|active| > 1 ==> forall kind: Kind :: Accompanied(r, kind))
  {
    var r := RecordsOf(s, zone);
    var active := ActiveKinds(s, zone);
    KindsCounted(s, zone);
    assert RecordOf(r, ZSK) == r.zsk && RecordOf(r, KSK) == r.ksk && RecordOf(r, Split) == r.split && RecordOf(r, Enroll) == r.enroll;
    if |active| == 1 {
      assert active[0] in active;
    }
  }

  /** The plan of a zone by the number of its active workflows. */
  lemma ReconcileShape(cfg: Config, now: Time, zone: Zone, s: State, ev: Evidence, pick: nat)
    ensures var todo := Reconcile(cfg, now, zone, s, ev, pick);
            var active := ActiveKinds(s, zone.name);
            && (|active| > 1 ==> todo == BlockOnly(zone.name, active[pick % |active|]))
            && (|active| == 1 ==>
                  || (todo == BlockOnly(zone.name, Enroll) && Lookup(s, WorkflowId(zone.name, active[0])).kind.Enroll?)
                  || todo == Advance(cfg, now, zone, Lookup(s, WorkflowId(zone.name, active[0])), ev, s.armedAt))
            && (|active| == 0 ==>
                  || todo == Rest || todo == BlockOnly(zone.name, ZSK)
                  || todo == Persist(Begin(zone.name, ZSK), Rest, Rest) || todo == Persist(Begin(zone.name, KSK), Rest, Rest))
  {}

  lemma ReconcileSafe(cfg: Config, now: Time, zone: Zone, mem: State, disk: State, e: Env, ev: Evidence, pick: nat)
    requires SiteInv(cfg, zone.name, now, Site(mem, disk, e, [])) && now > 0 && Truthful(ev, e)
    requires Alike(zone.name, mem, disk)
    ensures Safe(cfg, zone.name, now, mem, disk, e, Reconcile(cfg, now, zone, mem, ev, pick))
  {
    var active := ActiveKinds(mem, zone.name);
    ActiveOnes(mem, zone.name);
    ReconcileShape(cfg, now, zone, mem, ev, pick);
    SafeRest(cfg, zone.name, now, mem, disk, e);
    if |active| > 1 {
      BlockOnlySafe(cfg, now, zone.name, mem, disk, e, active[pick % |active|]);
    } else if |active| == 1 {
      OneActiveSafe(cfg, now, zone, mem, disk, e, ev, active[0], pick);
    } else {
      OpenSafe(cfg, now, zone.name, mem, disk, e, Block(WorkflowId(zone.name, ZSK)));
      OpenSafe(cfg, now, zone.name, mem, disk, e, Begin(zone.name, ZSK));
      OpenSafe(cfg, now, zone.name, mem, disk, e, Begin(zone.name, KSK));
    }
  }

  lemma OneActiveSafe(cfg: Config, now: Time, zone: Zone, mem: State, disk: State, e: Env, ev: Evidence, kind: Kind,
                      pick: nat)
    requires SiteInv(cfg, zone.name, now, Site(mem, disk, e, [])) && now > 0 && Truthful(ev, e)
    requires Alike(zone.name, mem, disk)
    requires ActiveKinds(mem, zone.name) == [kind] && OnlyActive(RecordsOf(mem, zone.name), kind)
    ensures Safe(cfg, zone.name, now, mem, disk, e, Reconcile(cfg, now, zone, mem, ev, pick))
  {
    var w := Lookup(mem, WorkflowId(zone.name, kind));
    assert w == RecordOf(RecordsOf(mem, zone.name), kind);
    assert w.Id() == WorkflowId(zone.name, kind);
    assert Holding(cfg, now, mem, disk, e, w);
    ActiveOnes(mem, zone.name);
    BlockOnlySafe(cfg, now, zone.name, mem, disk, e, Enroll);
    AdvanceSafe(cfg, now, mem, disk, e, zone, w, ev, mem.armedAt);
  }
}
