/** What a reconciliation cannot touch: the records of other zones, the arming, the
    bookkeeping of its own zone's world. Proved once for every plan that writes to one zone
    only, by induction over the script. */
module Aside {
  import opened Model
  import opened Inventory
  import opened Edits
  import opened Plans
  import opened World
  import opened Facts
  import opened Good
  import opened Races
  import opened Safety
  import opened RecordWrites
  import opened Listing
  import opened Legitimacy
  import opened Logs
  import opened Calls
  import opened ReconcileSafety

  // ---- plans of one zone -----------------------------------------------------------------

  /** All updates and calls of the plan concern the zone. */
  predicate Within(todo: Todo, zone: string) {
    match todo
    case Rest => true
    case Persist(edit, ok, fail) => Scoped(edit, zone) && Within(ok, zone) && Within(fail, zone)
    case Create(w, _, _, _, _) => w.zone == zone
    case Set(w, _, _, ok) => w.zone == zone && Within(ok, zone)
    case Delete(w, _, ok) => w.zone == zone && Within(ok, zone)
    case Update(w, _) => w.zone == zone
  }

  lemma MetWithin(cfg: Config, now: Time, site: Site, todo: Todo, o: Outcome, zone: string)
    requires Within(todo, zone)
    ensures Within(Meet(cfg, now, site, todo, o).1, zone)
  {}

  lemma LegitWithin(cfg: Config, now: Time, w: Workflow, todo: Todo)
    requires Legit(cfg, now, w, todo)
    ensures Within(todo, w.zone)
  {}

  lemma ReconcileWithin(cfg: Config, now: Time, zone: Zone, s: State, ev: Evidence, pick: nat)
    requires ValidConfig(cfg) && now > 0 && StateSound(cfg, s) && PositiveIds(ev.keys)
    ensures Within(Reconcile(cfg, now, zone, s, ev, pick), zone.name)
  {
    ReconcileShape(cfg, now, zone, s, ev, pick);
    var active := ActiveKinds(s, zone.name);
    if |active| == 1 {
      var w := Lookup(s, WorkflowId(zone.name, active[0]));
      assert w.Id() == WorkflowId(zone.name, active[0]) && Sound(cfg, w);
      AdvanceLegit(cfg, now, zone, w, ev, s.armedAt);
      LegitWithin(cfg, now, w, Advance(cfg, now, zone, w, ev, s.armedAt));
    }
  }

  // ---- other zones -------------------------------------------------------------------------

  lemma ScopeElsewhere(cfg: Config, now: Time, e: Edit, s: State, t: State, zone: string, id: WorkflowId)
    requires Scoped(e, zone) && Apply(cfg, now, e, s) == Some(t) && id.zone != zone
    ensures Lookup(t, id) == Lookup(s, id)
  {
    if Target(e).Some? {
      WritesOne(cfg, now, e, s, t);
    } else {
      CompletedLookup(cfg, now, e.w, s, id);
    }
  }

  /** A step of the plan leaves both stores of another zone as they were, or the file as memory. */
  lemma MetElsewhere(cfg: Config, now: Time, zone: string, site: Site, todo: Todo, o: Outcome, y: string)
    requires Within(todo, zone) && y != zone
    ensures var after := Meet(cfg, now, site, todo, o).0;
            Alike(y, site.mem, after.mem) && (Alike(y, site.disk, after.disk) || Alike(y, site.mem, after.disk))
  {
    if todo.Persist? && Apply(cfg, now, todo.edit, site.mem).Some? {
      var t := Apply(cfg, now, todo.edit, site.mem).value;
      forall kind: Kind
        ensures Lookup(t, WorkflowId(y, kind)) == Lookup(site.mem, WorkflowId(y, kind))
      {
        ScopeElsewhere(cfg, now, todo.edit, site.mem, t, zone, WorkflowId(y, kind));
      }
      SameRecords(site.mem, t, y);
    }
  }

  ghost predicate BothInv(cfg: Config, y: string, now: Time, site: Site, e: Env) {
    StateInv(cfg, site.mem, y, e, now) && StateInv(cfg, site.disk, y, e, now)
  }

  /** Other zones keep their invariant through a whole reconciliation and its Triggers. */
  lemma {:induction false} OthersKept(cfg: Config, now: Time, zone: string, site: Site, todo: Todo, script: seq<Beat>,
                                      y: string, e: Env)
    requires Within(todo, zone) && y != zone && EnvInv(e, now) && AllFit(script, y, e) && BothInv(cfg, y, now, site, e)
    ensures BothInv(cfg, y, now, Perform(cfg, now, site, todo, script), e)
    decreases |script|
  {
    if todo.Rest? || script == [] {
    } else if script[0].Slips? {
      var req := script[0].req;
      var next := Apply(cfg, now, TriggerEdit(req), site.mem);
      if next.Some? && !req.kind.Enroll? {
        assert Grounded(req, y, e);
        TriggerKeeps(cfg, now, site.mem, next.value, req, y, e);
      }
      OthersKept(cfg, now, zone, Slipped(cfg, now, site, req), todo, script[1..], y, e);
    } else {
      var step := Meet(cfg, now, site, todo, script[0].outcome);
      MetWithin(cfg, now, site, todo, script[0].outcome, zone);
      MetElsewhere(cfg, now, zone, site, todo, script[0].outcome, y);
      OthersKept(cfg, now, zone, step.0, step.1, script[1..], y, e);
    }
  }

  /** A record of another zone that is active stays what it was, in memory or on disk. */
  lemma {:induction false} OtherRecord(cfg: Config, now: Time, zone: string, site: Site, todo: Todo, script: seq<Beat>,
                                       id: WorkflowId, d: Workflow)
    requires Within(todo, zone) && id.zone != zone && Lookup(site.mem, id).Active()
    requires Lookup(site.disk, id) in {Lookup(site.mem, id), d}
    ensures Lookup(Perform(cfg, now, site, todo, script).mem, id) in {Lookup(site.mem, id), d}
    decreases |script|
  {
    if todo.Rest? || script == [] {
    } else if script[0].Slips? {
      var after := Slipped(cfg, now, site, script[0].req);
      ActiveThere(site.mem, id);
      SlipLeaves(cfg, now, site, script[0].req, id.zone);
      AlikeLookup(site.mem, after.mem, id);
      if after.disk != site.disk {
        AlikeLookup(site.mem, after.disk, id);
      }
      OtherRecord(cfg, now, zone, after, todo, script[1..], id, d);
    } else {
      var step := Meet(cfg, now, site, todo, script[0].outcome);
      MetWithin(cfg, now, site, todo, script[0].outcome, zone);
      MetElsewhere(cfg, now, zone, site, todo, script[0].outcome, id.zone);
      AlikeLookup(site.mem, step.0.mem, id);
      if Alike(id.zone, site.disk, step.0.disk) {
        AlikeLookup(site.disk, step.0.disk, id);
      } else {
        AlikeLookup(site.mem, step.0.disk, id);
      }
      OtherRecord(cfg, now, zone, step.0, step.1, script[1..], id, d);
    }
  }

  // ---- the arming --------------------------------------------------------------------------

  lemma ScopeArmed(cfg: Config, now: Time, e: Edit, s: State, t: State, zone: string)
    requires Scoped(e, zone) && Apply(cfg, now, e, s) == Some(t)
    ensures t.armedAt == s.armedAt
  {}

  /** No reconciliation arms enrollment. */
  lemma {:induction false} ArmingKept(cfg: Config, now: Time, zone: string, site: Site, todo: Todo, script: seq<Beat>)
    requires Within(todo, zone) && site.mem.armedAt == site.disk.armedAt
    ensures var after := Perform(cfg, now, site, todo, script);
            after.mem.armedAt == after.disk.armedAt == site.mem.armedAt
    decreases |script|
  {
    if todo.Rest? || script == [] {
    } else if script[0].Slips? {
      var req := script[0].req;
      var next := Apply(cfg, now, TriggerEdit(req), site.mem);
      StartedEach(site.mem, req.kind, req.zones, req.idem, now, WorkflowId("", ZSK));
      ArmingKept(cfg, now, zone, Slipped(cfg, now, site, req), todo, script[1..]);
    } else {
      var step := Meet(cfg, now, site, todo, script[0].outcome);
      MetWithin(cfg, now, site, todo, script[0].outcome, zone);
      if todo.Persist? && Apply(cfg, now, todo.edit, site.mem).Some? {
        ScopeArmed(cfg, now, todo.edit, site.mem, Apply(cfg, now, todo.edit, site.mem).value, zone);
      }
      ArmingKept(cfg, now, zone, step.0, step.1, script[1..]);
    }
  }

  // ---- the zone's world ------------------------------------------------------------------------

  /** Whatever is asked of PowerDNS and the registrar, what they guarantee on their own holds on. */
  lemma MetEnv(cfg: Config, now: Time, site: Site, todo: Todo, o: Outcome)
    requires EnvInv(site.env, now)
    ensures EnvInv(Meet(cfg, now, site, todo, o).0.env, now)
  {
    var e := site.env;
    match todo
    case Create(_, role, _, active, _) =>
      if CreateCall(e, now, role, active, o).Some? { Creating(e, now, role, active, o); }
    case Set(_, id, on, _) =>
      if SetCall(e, now, id, on, o).Some? { Rekeying(e, now, e.keys[id := e.keys[id].(active := on, published := true)], o); }
    case Delete(_, id, _) =>
      if DeleteCall(e, now, id, o).Some? { Deleting(e, now, id, o); }
    case _ =>
  }

  lemma {:induction false} EnvKept(cfg: Config, now: Time, site: Site, todo: Todo, script: seq<Beat>)
    requires EnvInv(site.env, now)
    ensures EnvInv(Perform(cfg, now, site, todo, script).env, now)
    decreases |script|
  {
    if todo.Rest? || script == [] {
    } else if script[0].Slips? {
      EnvKept(cfg, now, Slipped(cfg, now, site, script[0].req), todo, script[1..]);
    } else {
      var step := Meet(cfg, now, site, todo, script[0].outcome);
      MetEnv(cfg, now, site, todo, script[0].outcome);
      EnvKept(cfg, now, step.0, step.1, script[1..]);
    }
  }
}
