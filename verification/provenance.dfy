/** Where the calls of a run come from: each was made by a reconciliation of its zone, in a
    world that called for it. */
module Provenance {
  import opened Model
  import opened Inventory
  import opened Edits
  import opened Plans
  import opened World
  import opened Facts
  import opened Good
  import opened Races
  import opened Listing
  import opened Legitimacy
  import opened Logs
  import opened Calls
  import opened ReconcileSafety
  import opened Bookkeeping
  import opened Arming
  import opened ProofsFirst

  // ---- what a call presupposes ---------------------------------------------------------------

  predicate Serving(e: Env, key: int) { key in e.keys && e.keys[key].active && e.keys[key].published }

  predicate AtRegistrar(e: Env, key: int) { Holds(e.remote, key) }

  predicate AtNobody(e: Env) { Empty(e.remote) && e.cur.ds == {} }

  /** The replacement carries the zone: it serves, and signs what its role has to sign. */
  predicate Replaces(e: Env, w: Workflow) {
    && Serving(e, w.newKey)
    && (if w.kind.ZSK? then w.newKey in e.cur.zs else w.newKey in e.cur.ks)
    && (w.kind.Split? ==> Serving(e, w.newZsk) && w.newZsk in e.cur.zs)
  }

  /** The world of the zone at the beginning of the reconciliation that makes the call. */
  predicate CalledFor(e: Env, event: Event) {
    match event
    case Created(w, _) => w.oldKey in e.keys
    case Switched(w, key, on) =>
      && key in e.keys && e.keys[key].active != on
      && (on && w.kind.Split? ==> Serving(e, w.oldKey) && Serving(e, w.newKey) && Active(e.keys) == {w.oldKey, w.newKey})
      && (!on ==> Replaces(e, w) && (!w.kind.KSK? ==> e.cur.zoneTtl <= w.zoneTtl))
    case Deleted(w, key) =>
      && key in e.keys && !e.keys[key].active && Replaces(e, w)
      && (!w.kind.ZSK? ==> e.cur.ds == {w.newKey})
      && (w.kind.Split? ==> AtRegistrar(e, w.newKey))
    case Updated(w, key) =>
      && Serving(e, key) && key in e.cur.ks
      && (if w.kind.Enroll? then AtNobody(e) && Serving(e, w.newZsk) && w.newZsk in e.cur.zs
          else Serving(e, w.oldKey) && (if InitialSplit(w) then AtNobody(e) else AtRegistrar(e, w.oldKey)))
    case Finished(_) => true
  }

  // ---- from evidence to the world ---------------------------------------------------------------

  lemma SwitchCalledFor(cfg: Config, zone: Zone, w: Workflow, ev: Evidence, e: Env, now: Time, todo: Todo)
    requires EnvInv(e, now) && Truthful(ev, e) && todo.Set? && WriteProven(cfg, zone, w, ev, todo)
    requires !w.kind.Enroll? && ById(ev.keys, todo.key).Some? && ById(ev.keys, todo.key).value.active != todo.on
    ensures CalledFor(e, Switched(w, todo.key, todo.on))
  {
    Listed(ev.keys, e.keys);
    if todo.on && w.kind.Split? {
      ClosedKeys(ev.keys, e.keys, {w.oldKey, w.newKey, w.newZsk});
    }
  }

  lemma DeletionCalledFor(cfg: Config, zone: Zone, w: Workflow, ev: Evidence, e: Env, now: Time, todo: Todo)
    requires EnvInv(e, now) && Truthful(ev, e) && todo.Delete? && WriteProven(cfg, zone, w, ev, todo) && !w.kind.Enroll?
    ensures CalledFor(e, Deleted(w, todo.key))
  {
    Listed(ev.keys, e.keys);
  }

  lemma EnrolledPair(cfg: Config, w: Workflow, ev: Evidence, e: Env, now: Time)
    requires EnvInv(e, now) && Truthful(ev, e)
    requires EnrollmentInventory(cfg, ev.keys, w.newKey, w.newZsk, w.keyset).Some?
    ensures var found := EnrollmentInventory(cfg, ev.keys, w.newKey, w.newZsk, w.keyset).value;
            && Serving(e, found.0.id) && Serving(e, found.1.id)
            && (w.newKey != 0 ==> found.0.id == w.newKey) && (w.newZsk != 0 ==> found.1.id == w.newZsk)
  {
    var found := EnrollmentInventory(cfg, ev.keys, w.newKey, w.newZsk, w.keyset).value;
    assert found.0 in LiveKeys(ev.keys) && found.1 in LiveKeys(ev.keys);
  }

  lemma UpdateCalledFor(cfg: Config, zone: Zone, w: Workflow, ev: Evidence, e: Env, now: Time, v: Workflow, key: int)
    requires EnvInv(e, now) && Truthful(ev, e) && WriteProven(cfg, zone, w, ev, Update(v, key))
    requires v == w.(reg := v.reg) && (w.kind.Enroll? ==> !Unclassified(w))
    ensures CalledFor(e, Updated(v, key))
  {
    Listed(ev.keys, e.keys);
    if w.kind.Enroll? {
      EnrolledPair(cfg, w, ev, e, now);
    }
  }

  lemma ActivationFlips(now: Time, w: Workflow, ev: Evidence)
    requires ActivateNewPlan(now, w, ev).Set?
    ensures var todo := ActivateNewPlan(now, w, ev); ById(ev.keys, todo.key).Some? && ById(ev.keys, todo.key).value.active != todo.on
  {}

  lemma SwitchOffFlips(cfg: Config, now: Time, w: Workflow, ev: Evidence)
    requires DeactivateOldPlan(cfg, now, w, ev).Set?
    ensures var todo := DeactivateOldPlan(cfg, now, w, ev);
            ById(ev.keys, todo.key).Some? && ById(ev.keys, todo.key).value.active != todo.on
  {}

  lemma SwitchPlanned(cfg: Config, now: Time, zone: Zone, w: Workflow, ev: Evidence, armedAt: Time, e: Env)
    requires Usual(cfg, now, w, ev) && EnvInv(e, now) && Truthful(ev, e)
    requires Advance(cfg, now, zone, w, ev, armedAt).Set? || Advance(cfg, now, zone, w, ev, armedAt).Delete?
    ensures CalledFor(e, EventOf(Advance(cfg, now, zone, w, ev, armedAt)))
  {
    var todo := Advance(cfg, now, zone, w, ev, armedAt);
    AdvanceLegit(cfg, now, zone, w, ev, armedAt);
    SwitchesNeedProof(cfg, now, zone, w, ev, armedAt);
    if todo.Delete? {
      DeletionCalledFor(cfg, zone, w, ev, e, now, todo);
    } else {
      if w.phase.ActivateNew? { ActivationFlips(now, w, ev); } else { SwitchOffFlips(cfg, now, w, ev); }
      SwitchCalledFor(cfg, zone, w, ev, e, now, todo);
    }
  }

  lemma UpdatePlanned(cfg: Config, now: Time, zone: Zone, w: Workflow, ev: Evidence, armedAt: Time, e: Env)
    requires Usual(cfg, now, w, ev) && EnvInv(e, now) && Truthful(ev, e)
    requires MarksFirst(w, now, Advance(cfg, now, zone, w, ev, armedAt)) && Advance(cfg, now, zone, w, ev, armedAt).ok.Update?
    ensures CalledFor(e, EventOf(Advance(cfg, now, zone, w, ev, armedAt).ok))
  {
    var todo := Advance(cfg, now, zone, w, ev, armedAt);
    UpdatesNeedProof(cfg, now, zone, w, ev, armedAt);
    UpdateCalledFor(cfg, zone, w, ev, e, now, Requested(w, now), todo.ok.key);
  }

  lemma CreationPlanned(cfg: Config, now: Time, zone: Zone, w: Workflow, ev: Evidence, armedAt: Time, e: Env)
    requires Usual(cfg, now, w, ev) && EnvInv(e, now) && Truthful(ev, e)
    requires AsksCreate(w, now, Advance(cfg, now, zone, w, ev, armedAt))
    ensures CalledFor(e, EventOf(Advance(cfg, now, zone, w, ev, armedAt).ok))
  {
    Listed(ev.keys, e.keys);
  }

  /** The call a plan makes is called for. */
  lemma PlanCalledFor(cfg: Config, now: Time, zone: Zone, w: Workflow, ev: Evidence, armedAt: Time, e: Env)
    requires Usual(cfg, now, w, ev) && EnvInv(e, now) && Truthful(ev, e)
    ensures var call := CallOf(w, now, Advance(cfg, now, zone, w, ev, armedAt)); call.Some? ==> CalledFor(e, call.value)
  {
    var todo := Advance(cfg, now, zone, w, ev, armedAt);
    if todo.Set? || todo.Delete? {
      SwitchPlanned(cfg, now, zone, w, ev, armedAt, e);
    } else if AsksCreate(w, now, todo) {
      CreationPlanned(cfg, now, zone, w, ev, armedAt, e);
    } else if MarksFirst(w, now, todo) {
      UpdatePlanned(cfg, now, zone, w, ev, armedAt, e);
    }
  }

  // ---- the events of one reconciliation -----------------------------------------------------------

  /** b goes on from a with nothing but ends of instances and `call`. */
  predicate Adds(a: seq<Event>, b: seq<Event>, call: Option<Event>) {
    a <= b && forall i | |a| <= i < |b| :: b[i].Finished? || Some(b[i]) == call
  }

  predicate CallFree(todo: Todo) {
    match todo
    case Rest => true
    case Persist(_, ok, fail) => CallFree(ok) && CallFree(fail)
    case _ => false
  }

  lemma {:induction false} CallFreeAdds(cfg: Config, now: Time, site: Site, todo: Todo, script: seq<Beat>)
    requires CallFree(todo)
    ensures Adds(site.trace, Perform(cfg, now, site, todo, script).trace, None)
    decreases |script|
  {
    if todo.Rest? || script == [] {
    } else if script[0].Slips? {
      CallFreeAdds(cfg, now, Slipped(cfg, now, site, script[0].req), todo, script[1..]);
    } else {
      var step := Meet(cfg, now, site, todo, script[0].outcome);
      CallFreeAdds(cfg, now, step.0, step.1, script[1..]);
    }
  }

  lemma MetFree(cfg: Config, now: Time, site: Site, todo: Todo, o: Outcome)
    requires !todo.Rest? && !todo.Persist?
    requires (todo.Set? ==> CallFree(todo.ok)) && (todo.Delete? ==> CallFree(todo.ok))
    ensures CallFree(Meet(cfg, now, site, todo, o).1)
  {
    assert CallFree(Fail(todo.w));
    assert CallFree(Stop(todo.w));
  }

  /** One call whose record is on disk, then no further one. */
  lemma CallAdds(cfg: Config, now: Time, site: Site, todo: Todo, script: seq<Beat>)
    requires !todo.Rest? && !todo.Persist? && AnyActive(site.mem, todo.w.zone)
    requires Lookup(site.mem, todo.w.Id()) == todo.w && Lookup(site.disk, todo.w.Id()) == todo.w
    requires (todo.Set? ==> CallFree(todo.ok)) && (todo.Delete? ==> CallFree(todo.ok))
    ensures Adds(site.trace, Perform(cfg, now, site, todo, script).trace, Some(EventOf(todo)))
  {
    var w := todo.w;
    Settled(cfg, now, site, todo, script);
    SettleLeaves(cfg, now, site, script, w.zone);
    var (s, rest) := Settle(cfg, now, site, script);
    if rest != [] {
      AlikeLookup(site.mem, s.mem, w.Id());
      if s.disk != site.disk {
        AlikeLookup(site.mem, s.disk, w.Id());
      }
      var step := Meet(cfg, now, s, todo, rest[0].outcome);
      assert step.0.trace == site.trace + [EventOf(todo)];
      MetFree(cfg, now, s, todo, rest[0].outcome);
      CallFreeAdds(cfg, now, step.0, step.1, rest[1..]);
    }
  }

  /** The one call a legitimate plan may make. */
  function CallOf(w: Workflow, now: Time, todo: Todo): Option<Event> {
    if todo.Set? || todo.Delete? then Some(EventOf(todo))
    else if MarksFirst(w, now, todo) then Some(EventOf(todo.ok))
    else None
  }

  lemma MarkedAdds(cfg: Config, now: Time, site: Site, w: Workflow, todo: Todo, script: seq<Beat>)
    requires Worked(cfg, now, site, w) && MarksFirst(w, now, todo)
    ensures Adds(site.trace, Perform(cfg, now, site, todo, script).trace, CallOf(w, now, todo))
  {
    Settled(cfg, now, site, todo, script);
    SettleWorked(cfg, now, site, w, script);
    SettleEnv(cfg, now, site, script);
    var (s, rest) := Settle(cfg, now, site, script);
    OnlyIsActive(s.mem, w);
    if rest != [] {
      var step := Meet(cfg, now, s, todo, rest[0].outcome);
      MarkStep(cfg, now, s.mem, w, todo);
      assert step.0.trace == s.trace + [] == s.trace;
      if rest[0].outcome.io.Saved? {
        MarkSavedAdds(cfg, now, step.0, w, todo, rest[1..]);
      } else {
        CallFreeAdds(cfg, now, step.0, Fail(w), rest[1..]);
      }
    }
  }

  lemma MarkSavedAdds(cfg: Config, now: Time, site: Site, w: Workflow, todo: Todo, script: seq<Beat>)
    requires MarksFirst(w, now, todo) && Works(now, site.mem, WithMark(w, now, todo)) && site.mem == site.disk
    ensures Adds(site.trace, Perform(cfg, now, site, todo.ok, script).trace, CallOf(w, now, todo))
  {
    OnlyIsActive(site.mem, WithMark(w, now, todo));
    CallAdds(cfg, now, site, todo.ok, script);
  }

  lemma LegitAdds(cfg: Config, now: Time, site: Site, w: Workflow, todo: Todo, script: seq<Beat>)
    requires Worked(cfg, now, site, w) && Legit(cfg, now, w, todo)
    ensures Adds(site.trace, Perform(cfg, now, site, todo, script).trace, CallOf(w, now, todo))
  {
    OnlyIsActive(site.mem, w);
    if todo.Set? || todo.Delete? {
      CallAdds(cfg, now, site, todo, script);
    } else if MarksFirst(w, now, todo) {
      MarkedAdds(cfg, now, site, w, todo, script);
    } else {
      CallFreeAdds(cfg, now, site, todo, script);
    }
  }

  /** All new events of a reconciliation are called for in the zone's world as it found it. */
  ghost predicate AllCalledFor(a: seq<Event>, b: seq<Event>, e: Env, zone: string) {
    a <= b && forall i | |a| <= i < |b| :: b[i].Finished? || (CalledFor(e, b[i]) && b[i].w.zone == zone)
  }

  lemma AddsCalledFor(a: seq<Event>, b: seq<Event>, call: Option<Event>, e: Env, zone: string)
    requires Adds(a, b, call) && (call.Some? ==> CalledFor(e, call.value) && call.value.w.zone == zone)
    ensures AllCalledFor(a, b, e, zone)
  {}

  lemma CallZone(cfg: Config, now: Time, w: Workflow, todo: Todo)
    requires Legit(cfg, now, w, todo)
    ensures CallOf(w, now, todo).Some? ==> CallOf(w, now, todo).value.w.zone == w.zone
  {}

  lemma SoleEvents(cfg: Config, now: Time, zone: Zone, site: Site, w: Workflow, ev: Evidence, armedAt: Time,
                   script: seq<Beat>)
    requires Worked(cfg, now, site, w) && Usual(cfg, now, w, ev) && EnvInv(site.env, now) && Truthful(ev, site.env)
    ensures AllCalledFor(site.trace, Perform(cfg, now, site, Advance(cfg, now, zone, w, ev, armedAt), script).trace, site.env, w.zone)
  {
    var todo := Advance(cfg, now, zone, w, ev, armedAt);
    AdvanceLegit(cfg, now, zone, w, ev, armedAt);
    PlanCalledFor(cfg, now, zone, w, ev, armedAt, site.env);
    LegitAdds(cfg, now, site, w, todo, script);
    CallZone(cfg, now, w, todo);
    AddsCalledFor(site.trace, Perform(cfg, now, site, todo, script).trace, CallOf(w, now, todo), site.env, w.zone);
  }

  /** Only a handler's plan calls anybody. */
  lemma CallerIsSole(cfg: Config, now: Time, zone: Zone, s: State, ev: Evidence, pick: nat)
    requires !CallFree(Reconcile(cfg, now, zone, s, ev, pick))
    ensures var active := ActiveKinds(s, zone.name);
            && |active| == 1 && OnlyActive(RecordsOf(s, zone.name), active[0])
            && Reconcile(cfg, now, zone, s, ev, pick)
               == Advance(cfg, now, zone, Lookup(s, WorkflowId(zone.name, active[0])), ev, s.armedAt)
  {
    ActiveOnes(s, zone.name);
    ReconcileShape(cfg, now, zone, s, ev, pick);
  }

  lemma PlanEvents(cfg: Config, now: Time, zone: Zone, site: Site, ev: Evidence, pick: nat, script: seq<Beat>)
    requires SiteTidy(cfg, now, site) && EnvInv(site.env, now) && Truthful(ev, site.env) && Alike(zone.name, site.mem, site.disk)
    ensures AllCalledFor(site.trace, Perform(cfg, now, site, Reconcile(cfg, now, zone, site.mem, ev, pick), script).trace,
                         site.env, zone.name)
  {
    var todo := Reconcile(cfg, now, zone, site.mem, ev, pick);
    if CallFree(todo) {
      CallFreeAdds(cfg, now, site, todo, script);
      AddsCalledFor(site.trace, Perform(cfg, now, site, todo, script).trace, None, site.env, zone.name);
    } else {
      CallerIsSole(cfg, now, zone, site.mem, ev, pick);
      var id := WorkflowId(zone.name, ActiveKinds(site.mem, zone.name)[0]);
      CallerWorks(cfg, now, zone, site, ev, id);
      SoleEvents(cfg, now, zone, site, Lookup(site.mem, id), ev, site.mem.armedAt, script);
    }
  }

  lemma CallerWorks(cfg: Config, now: Time, zone: Zone, site: Site, ev: Evidence, id: WorkflowId)
    requires SiteTidy(cfg, now, site) && EnvInv(site.env, now) && Truthful(ev, site.env)
    requires Alike(zone.name, site.mem, site.disk) && id.zone == zone.name && OnlyActive(RecordsOf(site.mem, zone.name), id.kind)
    requires !CallFree(Advance(cfg, now, zone, Lookup(site.mem, id), ev, site.mem.armedAt))
    ensures var w := Lookup(site.mem, id); w.Id() == id && Worked(cfg, now, site, w) && Usual(cfg, now, w, ev)
  {
    LoggedSound(cfg, now, site.mem);
    ListedPositive(ev.keys, site.env, now);
    var w := Lookup(site.mem, id);
    assert w.Id() == id && Sound(cfg, w);
    AlikeLookup(site.mem, site.disk, id);
    AdvanceLegit(cfg, now, zone, w, ev, site.mem.armedAt);
  }

  // ---- the events of a run -------------------------------------------------------------------------

  /** The new events of one action. */
  ghost predicate Justified(w: World, a: Action, b: seq<Event>) {
    && w.trace <= b
    && forall i | |w.trace| <= i < |b| && !b[i].Finished? ::
         a.Reconciles? && a.zone.name == b[i].w.zone && a.zone.name in w.envs && CalledFor(w.envs[a.zone.name], b[i])
  }

  lemma NextJustified(cfg: Config, w: World, a: Action)
    requires BooksInv(cfg, w)
    ensures Justified(w, a, Next(cfg, w, a).trace)
  {
    if a.Reconciles? && a.zone.name in w.envs && Truthful(a.ev, w.envs[a.zone.name]) && Concurrent(a.script, w.envs) {
      ListedPositive(a.ev.keys, w.envs[a.zone.name], w.now);
      SaveOnward(cfg, w, Boot(a.zone, a.ev.keys), a.boot);
      SaveKeepsRest(cfg, w, Boot(a.zone, a.ev.keys), a.boot);
      var booted := SaveTo(cfg, w, Boot(a.zone, a.ev.keys), a.boot);
      if a.boot.Saved? {
        PlanEvents(cfg, w.now, a.zone, SiteOf(booted, a.zone.name), a.ev, a.pick, a.script);
      }
    } else if Demand(cfg, w, a).Some? {
      SaveKeepsRest(cfg, w, Demand(cfg, w, a).value, Reach(a));
    }
  }

  /** Every call of a run was made by a reconciliation of its zone, and the zone's keys, its
      signatures, its DS records and the registrar were then such that the call was called for. */
  lemma {:induction false} CallsCalledFor(cfg: Config, w: World, actions: seq<Action>, i: nat) returns (n: nat)
    requires Opened(cfg, w) && i < |Run(cfg, w, actions).trace| && !Run(cfg, w, actions).trace[i].Finished?
    ensures n < |actions| && actions[n].Reconciles?
    ensures var event, found := Run(cfg, w, actions).trace[i], Run(cfg, w, actions[..n]);
            && |found.trace| <= i < |Run(cfg, w, actions[..n + 1]).trace| && Run(cfg, w, actions[..n + 1]).trace[i] == event
            && actions[n].zone.name == event.w.zone && event.w.zone in found.envs
            && CalledFor(found.envs[event.w.zone], event)
    decreases |actions|
  {
    var shorter, last := actions[..|actions| - 1], actions[|actions| - 1];
    var before, end := Run(cfg, w, shorter), Run(cfg, w, actions);
    OpenedInv(cfg, w);
    RunBooks(cfg, w, shorter);
    NextJustified(cfg, before, last);
    if i < |before.trace| {
      n := CallsCalledFor(cfg, w, shorter, i);
      assert shorter[..n] == actions[..n] && shorter[..n + 1] == actions[..n + 1];
    } else {
      n := |actions| - 1;
      assert actions[..n + 1] == actions;
    }
  }
}
