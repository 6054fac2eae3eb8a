/** What holds of records, calls and the file at every point of every run, from any first
    start, whatever the zones look like. */
module Bookkeeping {
  import opened Model
  import opened Inventory
  import opened Edits
  import opened Plans
  import opened World
  import opened Facts
  import opened Good
  import opened OutsideSteps
  import opened Races
  import opened Listing
  import opened Legitimacy
  import opened Logs
  import opened Calls
  import opened Aside
  import opened ReconcileSafety

  ghost predicate EnvsInv(w: World) { forall name <- w.envs :: EnvInv(w.envs[name], w.now) }

  ghost predicate BooksInv(cfg: Config, w: World) { Tidy(cfg, w.now, w.mem, w.disk, w.trace) && EnvsInv(w) }

  /** A first start: nothing persisted, no call made. */
  ghost predicate Opened(cfg: Config, w: World) {
    && ValidConfig(cfg) && w.now > 0 && w.mem == EMPTY_STATE && w.disk == EMPTY_STATE && w.trace == []
    && EnvsInv(w)
  }

  lemma OpenedInv(cfg: Config, w: World)
    requires Opened(cfg, w)
    ensures BooksInv(cfg, w)
  {
    assert LegalLog(cfg, [], w.now) && Result(cfg, []) == EMPTY_STATE;
  }

  // ---- single updates ------------------------------------------------------------------------

  lemma SaveKeepsRest(cfg: Config, w: World, edit: Edit, io: Io)
    ensures var after := SaveTo(cfg, w, edit, io); after.envs == w.envs && after.now == w.now && after.trace == w.trace
  {}

  /** What leads from one world to a later one. */
  ghost predicate Onward(cfg: Config, w: World, after: World) {
    BooksInv(cfg, after) && w.now <= after.now && Leads(cfg, after.now, w.mem, after.mem)
  }

  lemma OnwardTrans(cfg: Config, a: World, b: World, c: World)
    requires Onward(cfg, a, b) && Onward(cfg, b, c)
    ensures Onward(cfg, a, c)
  {
    LeadsLater(cfg, b.now, c.now, a.mem, b.mem);
    LeadsTrans(cfg, c.now, a.mem, b.mem, c.mem);
  }

  lemma SaveOnward(cfg: Config, w: World, edit: Edit, io: Io)
    requires BooksInv(cfg, w) && Legal(cfg, w.now, edit, w.mem) && !edit.Complete?
    ensures Onward(cfg, w, SaveTo(cfg, w, edit, io))
  {
    SaveKeepsRest(cfg, w, edit, io);
    LeadsSelf(cfg, w.now, w.mem);
    var next := Apply(cfg, w.now, edit, w.mem);
    if next.Some? {
      CommitTidy(cfg, w.now, w.mem, w.disk, w.trace, edit, io, next.value);
      assert w.trace + Ends(edit, io) == w.trace;
    }
  }

  /** Every control call, sweep and outbox update is legal when its conditions hold. */
  lemma DemandLegal(cfg: Config, w: World, a: Action)
    requires BooksInv(cfg, w) && Demand(cfg, w, a).Some?
    ensures Legal(cfg, w.now, Demand(cfg, w, a).value, w.mem) && !Demand(cfg, w, a).value.Complete?
  {
    LoggedSound(cfg, w.now, w.mem);
    match a
    case Resumes(zones, evs, idem, request, io) =>
      var items := SplitRecords(w.mem, zones);
      forall x | x in items
        ensures Resumable(w.mem, x)
      {
        var i :| 0 <= i < |items| && items[i] == x;
        assert zones[i] in zones;
        assert x == Lookup(w.mem, WorkflowId(zones[i], Split)) && x.Id() == WorkflowId(zones[i], Split);
      }
    case Attests(name, _, _, _, _) =>
      var x := Lookup(w.mem, WorkflowId(name, Split));
      assert Sound(cfg, x) && x.Id() == WorkflowId(name, Split);
    case _ =>
  }

  // ---- one reconciliation ---------------------------------------------------------------------

  lemma ListedPositive(ks: seq<Key>, e: Env, now: Time)
    requires EnvInv(e, now) && Lists(ks, e.keys)
    ensures PositiveIds(ks)
  {}

  /** No Trigger of the script names the zone. */
  predicate Spares(script: seq<Beat>, zone: string) { forall b <- script | b.Slips? :: zone !in b.req.zones }

  lemma {:induction false} SettleSpares(cfg: Config, now: Time, site: Site, script: seq<Beat>, zone: string)
    requires Spares(script, zone)
    ensures Alike(zone, site.mem, Settle(cfg, now, site, script).0.mem)
    decreases |script|
  {
    if script != [] && script[0].Slips? {
      var req := script[0].req;
      var after := Slipped(cfg, now, site, req);
      var next := Apply(cfg, now, TriggerEdit(req), site.mem);
      if next.Some? {
        TriggerZone(cfg, now, site.mem, next.value, req, zone);
        SameRecords(site.mem, next.value, zone);
      }
      SettleSpares(cfg, now, after, script[1..], zone);
    }
  }

  /** A zone with an unknown scheme gets no Trigger. */
  lemma UnknownSpared(e: Env, now: Time, zone: string, envs: map<string, Env>, ks: seq<Key>, script: seq<Beat>)
    requires zone in envs && envs[zone] == e && EnvInv(e, now) && Lists(ks, e.keys) && Concurrent(script, envs)
    ensures KeyScheme(ks).UnknownScheme? ==> Spares(script, zone)
  {
    forall b | b in script && b.Slips? && zone in b.req.zones
      ensures !KeyScheme(ks).UnknownScheme?
    {
      assert TriggerReady(b.req, envs);
      OneScheme(ks, b.req.lists[zone], e.keys);
    }
  }

  lemma AdvanceFine(cfg: Config, now: Time, zone: Zone, site: Site, w: Workflow, ev: Evidence, armedAt: Time,
                    script: seq<Beat>)
    requires SiteTidy(cfg, now, site) && PositiveIds(ev.keys)
    requires OnlyActive(RecordsOf(site.mem, w.zone), w.kind) && Lookup(site.mem, w.Id()) == w
    requires Lookup(site.disk, w.Id()) == w
    ensures Fine(cfg, now, site, Perform(cfg, now, site, Advance(cfg, now, zone, w, ev, armedAt), script))
  {
    LoggedSound(cfg, now, site.mem);
    assert Sound(cfg, Lookup(site.mem, w.Id()));
    AdvanceLegit(cfg, now, zone, w, ev, armedAt);
    if Advance(cfg, now, zone, w, ev, armedAt) == Rest {
      FineSelf(cfg, now, site);
    } else {
      LegitFine(cfg, now, site, w, Advance(cfg, now, zone, w, ev, armedAt), script);
    }
  }

  lemma BlockFine(cfg: Config, now: Time, site: Site, id: WorkflowId, script: seq<Beat>)
    requires SiteTidy(cfg, now, site) && Lookup(site.mem, id).Active()
    ensures Fine(cfg, now, site, Perform(cfg, now, site, BlockOnly(id.zone, id.kind), script))
  {
    ActiveThere(site.mem, id);
    SettleLeaves(cfg, now, site, script, id.zone);
    AlikeLookup(site.mem, Settle(cfg, now, site, script).0.mem, id);
    AloneFine(cfg, now, site, Block(id), script);
  }

  lemma IdleFine(cfg: Config, now: Time, zone: Zone, site: Site, ev: Evidence, pick: nat, script: seq<Beat>)
    requires SiteTidy(cfg, now, site) && !AnyActive(site.mem, zone.name) && ActiveKinds(site.mem, zone.name) == []
    requires KeyScheme(ev.keys).UnknownScheme? ==> Spares(script, zone.name)
    ensures Fine(cfg, now, site, Perform(cfg, now, site, Reconcile(cfg, now, zone, site.mem, ev, pick), script))
  {
    var todo := Reconcile(cfg, now, zone, site.mem, ev, pick);
    ReconcileShape(cfg, now, zone, site.mem, ev, pick);
    if todo == Rest {
      FineSelf(cfg, now, site);
    } else if todo == BlockOnly(zone.name, ZSK) {
      SettleSpares(cfg, now, site, script, zone.name);
      AloneFine(cfg, now, site, Block(WorkflowId(zone.name, ZSK)), script);
    } else {
      AloneFine(cfg, now, site, todo.edit, script);
    }
  }

  lemma SoleFine(cfg: Config, now: Time, zone: Zone, site: Site, ev: Evidence, id: WorkflowId, script: seq<Beat>)
    requires SiteTidy(cfg, now, site) && PositiveIds(ev.keys) && Alike(zone.name, site.mem, site.disk)
    requires id.zone == zone.name && OnlyActive(RecordsOf(site.mem, zone.name), id.kind)
    ensures var todo := Advance(cfg, now, zone, Lookup(site.mem, id), ev, site.mem.armedAt);
            Fine(cfg, now, site, Perform(cfg, now, site, todo, script))
    ensures Lookup(site.mem, id).Active()
  {
    var w := Lookup(site.mem, id);
    LoggedSound(cfg, now, site.mem);
    assert w.Id() == id && w == RecordOf(RecordsOf(site.mem, zone.name), id.kind);
    AlikeLookup(site.mem, site.disk, id);
    AdvanceFine(cfg, now, zone, site, w, ev, site.mem.armedAt, script);
  }

  /** Several active workflows, or one whose enrollment was switched off: one is blocked. */
  lemma BlockedFine(cfg: Config, now: Time, zone: Zone, site: Site, todo: Todo, kind: Kind, script: seq<Beat>)
    requires SiteTidy(cfg, now, site) && todo == BlockOnly(zone.name, kind) && kind in ActiveKinds(site.mem, zone.name)
    ensures Fine(cfg, now, site, Perform(cfg, now, site, todo, script))
  {
    KindsCounted(site.mem, zone.name);
    assert RecordOf(RecordsOf(site.mem, zone.name), kind) == Lookup(site.mem, WorkflowId(zone.name, kind));
    BlockFine(cfg, now, site, WorkflowId(zone.name, kind), script);
  }

  /** What a reconciliation plans for a zone with active workflows. */
  lemma BusyPlan(cfg: Config, now: Time, zone: Zone, s: State, ev: Evidence, pick: nat) returns (kind: Kind)
    requires ActiveKinds(s, zone.name) != [] && StateSound(cfg, s)
    ensures kind in ActiveKinds(s, zone.name)
    ensures var todo := Reconcile(cfg, now, zone, s, ev, pick);
            || todo == BlockOnly(zone.name, kind)
            || (OnlyActive(RecordsOf(s, zone.name), kind)
                && todo == Advance(cfg, now, zone, Lookup(s, WorkflowId(zone.name, kind)), ev, s.armedAt))
  {
    var active := ActiveKinds(s, zone.name);
    ActiveOnes(s, zone.name);
    ReconcileShape(cfg, now, zone, s, ev, pick);
    kind := if |active| > 1 then active[pick % |active|] else active[0];
    assert Lookup(s, WorkflowId(zone.name, kind)).Id() == WorkflowId(zone.name, kind);
  }

  lemma ReconcileFine(cfg: Config, now: Time, zone: Zone, site: Site, ev: Evidence, pick: nat, script: seq<Beat>)
    requires SiteTidy(cfg, now, site) && PositiveIds(ev.keys) && Alike(zone.name, site.mem, site.disk)
    requires KeyScheme(ev.keys).UnknownScheme? ==> Spares(script, zone.name)
    ensures Fine(cfg, now, site, Perform(cfg, now, site, Reconcile(cfg, now, zone, site.mem, ev, pick), script))
  {
    if ActiveKinds(site.mem, zone.name) == [] {
      ActiveOnes(site.mem, zone.name);
      IdleFine(cfg, now, zone, site, ev, pick, script);
    } else {
      LoggedSound(cfg, now, site.mem);
      var kind := BusyPlan(cfg, now, zone, site.mem, ev, pick);
      if Reconcile(cfg, now, zone, site.mem, ev, pick) == BlockOnly(zone.name, kind) {
        BlockedFine(cfg, now, zone, site, BlockOnly(zone.name, kind), kind, script);
      } else {
        SoleFine(cfg, now, zone, site, ev, WorkflowId(zone.name, kind), script);
      }
    }
  }

  lemma ReconcileOnward(cfg: Config, w: World, a: Action)
    requires BooksInv(cfg, w) && a.Reconciles? && a.zone.name in w.envs && Truthful(a.ev, w.envs[a.zone.name])
    requires Concurrent(a.script, w.envs)
    ensures Onward(cfg, w, ReconcileStep(cfg, w, a))
  {
    var name := a.zone.name;
    ListedPositive(a.ev.keys, w.envs[name], w.now);
    UnknownSpared(w.envs[name], w.now, name, w.envs, a.ev.keys, a.script);
    var booted := SaveTo(cfg, w, Boot(a.zone, a.ev.keys), a.boot);
    SaveOnward(cfg, w, Boot(a.zone, a.ev.keys), a.boot);
    SaveKeepsRest(cfg, w, Boot(a.zone, a.ev.keys), a.boot);
    if a.boot.Saved? {
      var site := SiteOf(booted, name);
      var todo := Reconcile(cfg, w.now, a.zone, booted.mem, a.ev, a.pick);
      var after := Perform(cfg, w.now, site, todo, a.script);
      ReconcileFine(cfg, w.now, a.zone, site, a.ev, a.pick, a.script);
      EnvKept(cfg, w.now, site, todo, a.script);
      assert Onward(cfg, booted, WithSite(booted, name, after));
      OnwardTrans(cfg, w, booted, WithSite(booted, name, after));
    }
  }

  // ---- the outside -----------------------------------------------------------------------------

  lemma TidyLater(cfg: Config, now: Time, later: Time, mem: State, disk: State, trace: seq<Event>)
    requires Tidy(cfg, now, mem, disk, trace) && now <= later
    ensures Tidy(cfg, later, mem, disk, trace)
  {
    LogLater(cfg, now, later, mem);
    if disk != mem {
      StepsLater(cfg, now, later, mem, disk);
    }
  }

  lemma EvolvedEnv(e: Env, now: Time, ds: set<int>)
    requires EnvInv(e, now)
    ensures EnvInv(Evolve(e, now, e.cur.(ds := ds)), now)
  {}

  lemma ShiftedEnv(e: Env, now: Time, shift: Shift)
    requires EnvInv(e, now)
    ensures EnvInv(Shifted(e, now, shift), now)
  {
    match shift
    case ParentApplies => EvolvedEnv(e, now, Claim(e.remote));
    case Relabels(labels) => RelabellingKeeps(e, labels, 0);
    case _ =>
  }

  // ---- runs --------------------------------------------------------------------------------------

  lemma NextOnward(cfg: Config, w: World, a: Action)
    requires BooksInv(cfg, w)
    ensures Onward(cfg, w, Next(cfg, w, a))
  {
    LeadsSelf(cfg, w.now, w.mem);
    match a
    case Reconciles(zone, ev, _, _, script) =>
      if zone.name in w.envs && Truthful(ev, w.envs[zone.name]) && Concurrent(script, w.envs) { ReconcileOnward(cfg, w, a); }
    case Restarts => ReloadTidy(cfg, w.now, w.mem, w.disk, w.trace);
    case Waits(until) =>
      if until >= w.now {
        TidyLater(cfg, w.now, until, w.mem, w.disk, w.trace);
        LeadsSelf(cfg, until, w.mem);
      }
    case Shifts(name, shift) => if name in w.envs { ShiftedEnv(w.envs[name], w.now, shift); }
    case _ =>
      if Demand(cfg, w, a).Some? {
        DemandLegal(cfg, w, a);
        SaveOnward(cfg, w, Demand(cfg, w, a).value, Reach(a));
      }
  }

  /** From any point of a run to its end: the books stay in order, and memory changes by legal
      updates only. */
  lemma {:induction false} RunOnward(cfg: Config, w: World, actions: seq<Action>, n: nat)
    requires BooksInv(cfg, w) && n <= |actions|
    ensures Onward(cfg, Run(cfg, w, actions[..n]), Run(cfg, w, actions))
  {
    if n == |actions| {
      assert actions[..n] == actions;
      RunBooks(cfg, w, actions);
      LeadsSelf(cfg, Run(cfg, w, actions).now, Run(cfg, w, actions).mem);
    } else {
      var shorter := actions[..|actions| - 1];
      assert shorter[..n] == actions[..n];
      RunOnward(cfg, w, shorter, n);
      NextOnward(cfg, Run(cfg, w, shorter), actions[|actions| - 1]);
      OnwardTrans(cfg, Run(cfg, w, actions[..n]), Run(cfg, w, shorter), Run(cfg, w, actions));
    }
  }

  lemma {:induction false} RunBooks(cfg: Config, w: World, actions: seq<Action>)
    requires BooksInv(cfg, w)
    ensures BooksInv(cfg, Run(cfg, w, actions))
  {
    if actions != [] {
      RunBooks(cfg, w, actions[..|actions| - 1]);
      NextOnward(cfg, Run(cfg, w, actions[..|actions| - 1]), actions[|actions| - 1]);
    }
  }
}
