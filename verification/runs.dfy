/** Whole runs: every zone stays good through any interleaving of reconciliations, control
    calls, failed writes, lost responses, restarts and the outside world. */
module Runs {
  import opened Model
  import opened Inventory
  import opened Edits
  import opened Plans
  import opened World
  import opened Facts
  import opened Good
  import opened OutsideSteps
  import opened Races
  import opened Safety
  import opened RecordWrites
  import opened Legitimacy
  import opened Logs
  import opened Calls
  import opened Aside
  import opened ReconcileSafety
  import opened ControlSafety
  import opened Bookkeeping

  ghost predicate ZonesInv(cfg: Config, now: Time, mem: State, disk: State, envs: map<string, Env>) {
    forall name <- envs :: SiteInv(cfg, name, now, Site(mem, disk, envs[name], []))
  }

  ghost predicate WorldInv(cfg: Config, w: World) {
    BooksInv(cfg, w) && ZonesInv(cfg, w.now, w.mem, w.disk, w.envs)
  }

  /** A first start with every zone between workflows. */
  ghost predicate FirstStart(cfg: Config, w: World) {
    Opened(cfg, w) && forall name <- w.envs :: Steady(w.envs[name], cfg.margin, w.now)
  }

  lemma FirstInv(cfg: Config, w: World)
    requires FirstStart(cfg, w)
    ensures WorldInv(cfg, w)
  {
    OpenedInv(cfg, w);
    forall name | name in w.envs
      ensures SiteInv(cfg, name, w.now, Site(w.mem, w.disk, w.envs[name], []))
    {
      NoneGood(cfg, RecordsOf(EMPTY_STATE, name), w.envs[name], w.now);
    }
  }

  // ---- single updates ------------------------------------------------------------------------

  lemma SaveZones(cfg: Config, w: World, edit: Edit, io: Io)
    requires WorldInv(cfg, w)
    requires Apply(cfg, w.now, edit, w.mem).Some? ==>
               forall name <- w.envs :: StateInv(cfg, Apply(cfg, w.now, edit, w.mem).value, name, w.envs[name], w.now)
    ensures var after := SaveTo(cfg, w, edit, io); ZonesInv(cfg, w.now, after.mem, after.disk, w.envs)
  {
    var after := SaveTo(cfg, w, edit, io);
    forall name | name in w.envs
      ensures SiteInv(cfg, name, w.now, Site(after.mem, after.disk, w.envs[name], []))
    {
      assert SiteInv(cfg, name, w.now, Site(w.mem, w.disk, w.envs[name], []));
      SaveZone(cfg, w, edit, io, name);
    }
  }

  lemma SaveZone(cfg: Config, w: World, edit: Edit, io: Io, name: string)
    requires name in w.envs && SiteInv(cfg, name, w.now, Site(w.mem, w.disk, w.envs[name], []))
    requires Apply(cfg, w.now, edit, w.mem).Some? ==> StateInv(cfg, Apply(cfg, w.now, edit, w.mem).value, name, w.envs[name], w.now)
    ensures var after := SaveTo(cfg, w, edit, io); SiteInv(cfg, name, w.now, Site(after.mem, after.disk, w.envs[name], []))
  {}

  /** An update asked for keeps each zone good. */
  lemma DemandKeeps(cfg: Config, w: World, a: Action, t: State, name: string)
    requires WorldInv(cfg, w) && Demand(cfg, w, a).Some? && name in w.envs
    requires Apply(cfg, w.now, Demand(cfg, w, a).value, w.mem) == Some(t)
    ensures StateInv(cfg, t, name, w.envs[name], w.now)
  {
    var edit := Demand(cfg, w, a).value;
    assert SiteInv(cfg, name, w.now, Site(w.mem, w.disk, w.envs[name], []));
    if a.Triggers? {
      TriggerKeeps(cfg, w.now, w.mem, t, a.req, name, w.envs[name]);
    } else if edit.Attest? || edit.ResumeAll? {
      DemandLegal(cfg, w, a);
      ControlKeeps(cfg, w, edit, t, name);
    } else {
      UpkeepKeeps(cfg, w.now, w.mem, t, edit, name, w.envs[name]);
    }
  }

  lemma UpkeepKeeps(cfg: Config, now: Time, s: State, t: State, edit: Edit, name: string, e: Env)
    requires EnvInv(e, now) && StateInv(cfg, s, name, e, now) && Apply(cfg, now, edit, s) == Some(t)
    requires edit.Arm? || (edit.Block? && edit.id.kind.Enroll?) || edit.Expire? || edit.Deliver?
    ensures StateInv(cfg, t, name, e, now)
  {
    match edit
    case Arm(listing, idem) => ArmKeeps(cfg, now, s, t, listing, idem, name, e);
    case Block(id) => SweepKeeps(cfg, now, s, id.zone, name, e);
    case _ =>
      HousekeepRecords(cfg, now, edit, s);
      SameZone(cfg, s, t, name, e, now);
  }

  lemma ControlKeeps(cfg: Config, w: World, edit: Edit, t: State, name: string)
    requires WorldInv(cfg, w) && name in w.envs && (edit.Attest? || edit.ResumeAll?) && Legal(cfg, w.now, edit, w.mem)
    requires Apply(cfg, w.now, edit, w.mem) == Some(t)
    ensures StateInv(cfg, t, name, w.envs[name], w.now)
  {
    assert SiteInv(cfg, name, w.now, Site(w.mem, w.disk, w.envs[name], []));
    if edit.Attest? {
      AttestKeeps(cfg, w.now, w.mem, t, edit.w, edit.ttl, edit.idem, edit.request, name, w.envs[name]);
    } else {
      ResumeKeeps(cfg, w.now, w.mem, t, edit.items, edit.idem, edit.request, name, w.envs[name]);
    }
  }

  lemma HousekeepRecords(cfg: Config, now: Time, edit: Edit, s: State)
    requires edit.Expire? || edit.Deliver?
    ensures Apply(cfg, now, edit, s).Some?
    ensures forall id :: Lookup(Apply(cfg, now, edit, s).value, id) == Lookup(s, id)
  {}

  // ---- one reconciliation ---------------------------------------------------------------------

  lemma BootZones(cfg: Config, w: World, zone: Zone, keys: seq<Key>, io: Io)
    requires WorldInv(cfg, w)
    ensures var after := SaveTo(cfg, w, Boot(zone, keys), io); ZonesInv(cfg, w.now, after.mem, after.disk, w.envs)
  {
    forall name | name in w.envs
      ensures StateInv(cfg, Bootstrap(cfg, w.mem, zone, keys, w.now), name, w.envs[name], w.now)
    {
      assert SiteInv(cfg, name, w.now, Site(w.mem, w.disk, w.envs[name], []));
      BootKeeps(cfg, w.now, w.mem, zone, keys, name, w.envs[name]);
    }
    SaveZones(cfg, w, Boot(zone, keys), io);
  }

  /** What Triggers check of all zones, they check of each. */
  lemma ConcurrentFits(script: seq<Beat>, envs: map<string, Env>, zone: string)
    requires Concurrent(script, envs) && zone in envs
    ensures AllFit(script, zone, envs[zone])
  {
    forall b | b in script && b.Slips?
      ensures Grounded(b.req, zone, envs[zone])
    {
      assert TriggerReady(b.req, envs);
    }
  }

  lemma PlanOwnZone(cfg: Config, w: World, zone: Zone, ev: Evidence, pick: nat, script: seq<Beat>)
    requires WorldInv(cfg, w) && zone.name in w.envs && Truthful(ev, w.envs[zone.name])
    requires w.mem == w.disk && Concurrent(script, w.envs)
    ensures var todo := Reconcile(cfg, w.now, zone, w.mem, ev, pick);
            SiteInv(cfg, zone.name, w.now, Perform(cfg, w.now, SiteOf(w, zone.name), todo, script))
  {
    var site := SiteOf(w, zone.name);
    assert SiteInv(cfg, zone.name, w.now, Site(w.mem, w.disk, w.envs[zone.name], []));
    ReconcileSafe(cfg, w.now, zone, w.mem, w.disk, site.env, ev, pick);
    ConcurrentFits(script, w.envs, zone.name);
    SafeEnds(cfg, zone.name, w.now, site, Reconcile(cfg, w.now, zone, w.mem, ev, pick), script);
  }

  lemma PlanOtherZone(cfg: Config, w: World, zone: Zone, ev: Evidence, pick: nat, script: seq<Beat>, y: string)
    requires WorldInv(cfg, w) && zone.name in w.envs && Truthful(ev, w.envs[zone.name])
    requires Concurrent(script, w.envs) && y in w.envs && y != zone.name
    ensures var todo := Reconcile(cfg, w.now, zone, w.mem, ev, pick);
            var after := Perform(cfg, w.now, SiteOf(w, zone.name), todo, script);
            SiteInv(cfg, y, w.now, Site(after.mem, after.disk, w.envs[y], []))
  {
    ListedPositive(ev.keys, w.envs[zone.name], w.now);
    LoggedSound(cfg, w.now, w.mem);
    ReconcileWithin(cfg, w.now, zone, w.mem, ev, pick);
    assert SiteInv(cfg, y, w.now, Site(w.mem, w.disk, w.envs[y], []));
    ConcurrentFits(script, w.envs, y);
    OthersKept(cfg, w.now, zone.name, SiteOf(w, zone.name), Reconcile(cfg, w.now, zone, w.mem, ev, pick), script, y, w.envs[y]);
  }

  /** A reconciliation of one zone keeps all zones good. */
  lemma PlanZones(cfg: Config, w: World, zone: Zone, ev: Evidence, pick: nat, script: seq<Beat>)
    requires WorldInv(cfg, w) && zone.name in w.envs && Truthful(ev, w.envs[zone.name])
    requires w.mem == w.disk && Concurrent(script, w.envs)
    ensures var todo := Reconcile(cfg, w.now, zone, w.mem, ev, pick);
            var after := Perform(cfg, w.now, SiteOf(w, zone.name), todo, script);
            ZonesInv(cfg, w.now, after.mem, after.disk, w.envs[zone.name := after.env])
  {
    PlanOwnZone(cfg, w, zone, ev, pick, script);
    var after := Perform(cfg, w.now, SiteOf(w, zone.name), Reconcile(cfg, w.now, zone, w.mem, ev, pick), script);
    forall y | y in w.envs && y != zone.name
      ensures SiteInv(cfg, y, w.now, Site(after.mem, after.disk, w.envs[y], []))
    {
      PlanOtherZone(cfg, w, zone, ev, pick, script, y);
    }
    ZonesBack(cfg, w.now, after, w.envs, zone.name);
  }

  lemma ZonesBack(cfg: Config, now: Time, after: Site, envs: map<string, Env>, name: string)
    requires SiteInv(cfg, name, now, after)
    requires forall y | y in envs && y != name :: SiteInv(cfg, y, now, Site(after.mem, after.disk, envs[y], []))
    ensures ZonesInv(cfg, now, after.mem, after.disk, envs[name := after.env])
  {}

  lemma ReconcileInv(cfg: Config, w: World, a: Action)
    requires WorldInv(cfg, w) && a.Reconciles? && a.zone.name in w.envs && Truthful(a.ev, w.envs[a.zone.name])
    requires Concurrent(a.script, w.envs)
    ensures WorldInv(cfg, ReconcileStep(cfg, w, a))
  {
    ReconcileOnward(cfg, w, a);
    var booted := SaveTo(cfg, w, Boot(a.zone, a.ev.keys), a.boot);
    ListedPositive(a.ev.keys, w.envs[a.zone.name], w.now);
    SaveOnward(cfg, w, Boot(a.zone, a.ev.keys), a.boot);
    SaveKeepsRest(cfg, w, Boot(a.zone, a.ev.keys), a.boot);
    BootZones(cfg, w, a.zone, a.ev.keys, a.boot);
    if a.boot.Saved? {
      PlanZones(cfg, booted, a.zone, a.ev, a.pick, a.script);
    }
  }

  // ---- the outside -----------------------------------------------------------------------------

  lemma ZoneLater(cfg: Config, w: World, name: string, e2: Env, later: Time)
    requires WorldInv(cfg, w) && name in w.envs && Keeps(w.envs[name], e2, cfg.margin) && EnvInv(e2, later)
    requires w.now <= later
    ensures SiteInv(cfg, name, later, Site(w.mem, w.disk, e2, []))
  {
    assert SiteInv(cfg, name, w.now, Site(w.mem, w.disk, w.envs[name], []));
    ZoneKept(cfg, RecordsOf(w.mem, name), w.envs[name], e2, w.now, later);
    ZoneKept(cfg, RecordsOf(w.disk, name), w.envs[name], e2, w.now, later);
  }

  /** Nothing that happens outside the controller makes a good zone bad. */
  lemma ShiftKeeps(e: Env, m: Time, now: Time, shift: Shift)
    requires EnvInv(e, now)
    ensures Keeps(e, Shifted(e, now, shift), m) && EnvInv(Shifted(e, now, shift), now)
  {
    match shift
    case RegistrarApplies(key) =>
      WaitingKeeps(e, m);
      if key in e.pending { RegistrarKeeps(e, m, key); }
    case ParentApplies =>
      ParentKeeps(e, m, now);
      EvolvedEnv(e, now, Claim(e.remote));
    case RaisesTtl(_, _, _) => RaisingKeeps(e, Shifted(e, now, shift), m);
    case Relabels(labels) => RelabellingKeeps(e, labels, m);
  }

  lemma ShiftZones(cfg: Config, w: World, name: string, shift: Shift)
    requires WorldInv(cfg, w) && name in w.envs
    ensures ZonesInv(cfg, w.now, w.mem, w.disk, w.envs[name := Shifted(w.envs[name], w.now, shift)])
  {
    assert SiteInv(cfg, name, w.now, Site(w.mem, w.disk, w.envs[name], []));
    ShiftKeeps(w.envs[name], cfg.margin, w.now, shift);
    OutsideZones(cfg, w, name, Shifted(w.envs[name], w.now, shift));
  }

  lemma OutsideZones(cfg: Config, w: World, name: string, e2: Env)
    requires WorldInv(cfg, w) && name in w.envs && Keeps(w.envs[name], e2, cfg.margin) && EnvInv(e2, w.now)
    ensures ZonesInv(cfg, w.now, w.mem, w.disk, w.envs[name := e2])
  {
    ZoneLater(cfg, w, name, e2, w.now);
    forall y | y in w.envs && y != name
      ensures SiteInv(cfg, y, w.now, Site(w.mem, w.disk, w.envs[y], []))
    {}
  }

  lemma WaitZones(cfg: Config, w: World, later: Time)
    requires WorldInv(cfg, w) && w.now <= later
    ensures ZonesInv(cfg, later, w.mem, w.disk, w.envs)
  {
    forall name | name in w.envs
      ensures SiteInv(cfg, name, later, Site(w.mem, w.disk, w.envs[name], []))
    {
      assert SiteInv(cfg, name, w.now, Site(w.mem, w.disk, w.envs[name], []));
      WaitingKeeps(w.envs[name], cfg.margin);
      ZoneLater(cfg, w, name, w.envs[name], later);
    }
  }

  lemma RestartZones(cfg: Config, w: World)
    requires WorldInv(cfg, w)
    ensures ZonesInv(cfg, w.now, w.disk, w.disk, w.envs)
  {
    forall name | name in w.envs
      ensures SiteInv(cfg, name, w.now, Site(w.disk, w.disk, w.envs[name], []))
    {
      assert SiteInv(cfg, name, w.now, Site(w.mem, w.disk, w.envs[name], []));
    }
  }

  // ---- runs --------------------------------------------------------------------------------------

  lemma NextInv(cfg: Config, w: World, a: Action)
    requires WorldInv(cfg, w)
    ensures WorldInv(cfg, Next(cfg, w, a))
  {
    NextOnward(cfg, w, a);
    if a.Reconciles? {
      if a.zone.name in w.envs && Truthful(a.ev, w.envs[a.zone.name]) && Concurrent(a.script, w.envs) { ReconcileInv(cfg, w, a); }
    } else if a.Restarts? {
      RestartZones(cfg, w);
    } else if a.Waits? {
      if a.until >= w.now { WaitZones(cfg, w, a.until); }
    } else if a.Shifts? {
      if a.name in w.envs { ShiftZones(cfg, w, a.name, a.shift); }
    } else {
      DemandInv(cfg, w, a);
      if Demand(cfg, w, a).Some? { SaveKeepsRest(cfg, w, Demand(cfg, w, a).value, Reach(a)); }
    }
  }

  lemma DemandInv(cfg: Config, w: World, a: Action)
    requires WorldInv(cfg, w)
    ensures var edit := Demand(cfg, w, a);
            edit.Some? ==> var after := SaveTo(cfg, w, edit.value, Reach(a)); ZonesInv(cfg, w.now, after.mem, after.disk, w.envs)
  {
    var edit := Demand(cfg, w, a);
    if edit.Some? {
      var next := Apply(cfg, w.now, edit.value, w.mem);
      if next.Some? {
        forall name | name in w.envs
          ensures StateInv(cfg, next.value, name, w.envs[name], w.now)
        {
          DemandKeeps(cfg, w, a, next.value, name);
        }
      }
      SaveZones(cfg, w, edit.value, Reach(a));
    }
  }

  /** The invariant holds at every point of every run. */
  lemma {:induction false} RunInv(cfg: Config, w: World, actions: seq<Action>)
    requires FirstStart(cfg, w)
    ensures WorldInv(cfg, Run(cfg, w, actions))
  {
    if actions == [] {
      FirstInv(cfg, w);
    } else {
      RunInv(cfg, w, actions[..|actions| - 1]);
      NextInv(cfg, Run(cfg, w, actions[..|actions| - 1]), actions[|actions| - 1]);
    }
  }
}
