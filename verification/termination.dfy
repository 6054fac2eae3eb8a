/** Termination over whole runs: no action makes an active workflow larger, every reconciliation
    that succeeds makes it smaller, so only so many can succeed before it is idle. */
module Termination {
  import opened Model
  import opened Inventory
  import opened Edits
  import opened Plans
  import opened World
  import opened Facts
  import opened Good
  import opened Races
  import opened Legitimacy
  import opened Logs
  import opened Calls
  import opened Aside
  import opened ReconcileSafety
  import opened Bookkeeping
  import opened Progress
  import opened Willingness

  // ---- answers that help -----------------------------------------------------------------

  /** PowerDNS and the registrar carry out what the plan asks for and say so acceptably. */
  predicate Welcome(cfg: Config, now: Time, e: Env, todo: Todo, o: Outcome) {
    match todo
    case Create(w, role, algorithm, active, zskSlot) =>
      CreateCall(e, now, role, active, o).Some? && GoodReply(cfg, w, o.key, role, algorithm, active, zskSlot)
    case Set(_, key, on, _) => SetCall(e, now, key, on, o).Some?
    case Delete(_, key, _) => DeleteCall(e, now, key, o).Some?
    case Update(w, key) => UpdateCall(e, key, o).Some? && (w.kind.Enroll? ==> o.job.id > 0)
    case _ => true
  }

  /** Every update is saved, every call is carried out, every response arrives. */
  ghost predicate Obliging(cfg: Config, now: Time, site: Site, todo: Todo, script: seq<Beat>)
    decreases |script|
  {
    if todo.Rest? then true
    else if script == [] then false
    else match script[0]
      case Slips(req) => Obliging(cfg, now, Slipped(cfg, now, site, req), todo, script[1..])
      case Meets(o) =>
        var step := Meet(cfg, now, site, todo, o);
        o.io.Saved? && o.seen && Welcome(cfg, now, site.env, todo, o) && Obliging(cfg, now, step.0, step.1, script[1..])
  }

  lemma {:induction false} ObligingSettled(cfg: Config, now: Time, site: Site, todo: Todo, script: seq<Beat>)
    requires !todo.Rest?
    ensures var (s, rest) := Settle(cfg, now, site, script);
            Obliging(cfg, now, site, todo, script)
            <==> rest != [] && rest[0].outcome.io.Saved? && rest[0].outcome.seen
                 && Welcome(cfg, now, s.env, todo, rest[0].outcome)
                 && var step := Meet(cfg, now, s, todo, rest[0].outcome); Obliging(cfg, now, step.0, step.1, rest[1..])
    decreases |script|
  {
    if script != [] && script[0].Slips? {
      ObligingSettled(cfg, now, Slipped(cfg, now, site, script[0].req), todo, script[1..]);
    }
  }

  ghost predicate Helps(cfg: Config, now: Time, site: Site, todo: Todo, script: seq<Beat>) {
    Obliging(cfg, now, site, todo, script) ==> Succeeds(cfg, now, site, todo, script)
  }

  lemma HelpsMove(cfg: Config, now: Time, site: Site, v: Workflow, todo: Todo, script: seq<Beat>)
    requires Moves(cfg, now, v, todo) || todo == Finish(v)
    ensures Helps(cfg, now, site, todo, script)
  {
    ObligingSettled(cfg, now, site, todo, script);
    SuccessSettled(cfg, now, site, todo, script);
  }

  lemma HelpsSet(cfg: Config, now: Time, site: Site, w: Workflow, todo: Todo, script: seq<Beat>)
    requires || (todo.Set? && todo.w == w && Moves(cfg, now, w, todo.ok))
             || (todo == Delete(w, w.oldKey, Finish(w)))
    ensures Helps(cfg, now, site, todo, script)
  {
    ObligingSettled(cfg, now, site, todo, script);
    SuccessSettled(cfg, now, site, todo, script);
    var (s, rest) := Settle(cfg, now, site, script);
    if rest != [] {
      HelpsMove(cfg, now, Meet(cfg, now, s, todo, rest[0].outcome).0, w, todo.ok, rest[1..]);
    }
  }

  lemma HelpsCalled(cfg: Config, now: Time, site: Site, v: Workflow, todo: Todo, script: seq<Beat>)
    requires Ready(cfg, now, v) && Calling(v, todo)
    ensures Helps(cfg, now, site, todo, script)
  {
    ObligingSettled(cfg, now, site, todo, script);
    SuccessSettled(cfg, now, site, todo, script);
    var (s, rest) := Settle(cfg, now, site, script);
    if rest != [] {
      var step := Meet(cfg, now, s, todo, rest[0].outcome);
      AnswerIs(cfg, now, s, v, todo, rest[0].outcome);
      if Moves(cfg, now, v, step.1) {
        HelpsMove(cfg, now, step.0, v, step.1, rest[1..]);
      }
    }
  }

  lemma HelpsMarked(cfg: Config, now: Time, site: Site, w: Workflow, todo: Todo, script: seq<Beat>)
    requires Ready(cfg, now, w) && w.Active() && Lookup(site.mem, w.Id()) == w && MarksFirst(w, now, todo)
    ensures Helps(cfg, now, site, todo, script)
  {
    ObligingSettled(cfg, now, site, todo, script);
    SuccessSettled(cfg, now, site, todo, script);
    SettlesOn(cfg, now, site, w, script);
    var (s, rest) := Settle(cfg, now, site, script);
    if rest != [] {
      MarkedRecord(cfg, now, w, s.mem, todo);
      MarkedReady(cfg, now, w, todo);
      HelpsCalled(cfg, now, Meet(cfg, now, s, todo, rest[0].outcome).0, WithMark(w, now, todo), todo.ok, rest[1..]);
    }
  }

  /** When every update is saved and every call carried out and answered, a handler that does
      something and neither fails nor blocks on its evidence succeeds. */
  lemma AnswersHelp(cfg: Config, now: Time, zone: Zone, site: Site, w: Workflow, ev: Evidence, armedAt: Time,
                    script: seq<Beat>)
    requires ValidConfig(cfg) && now > 0 && Sound(cfg, w) && PositiveIds(ev.keys) && w.Active()
    requires Lookup(site.mem, w.Id()) == w
    requires Advance(cfg, now, zone, w, ev, armedAt) !in {Rest, Fail(w), Stop(w)}
    requires Obliging(cfg, now, site, Advance(cfg, now, zone, w, ev, armedAt), script)
    ensures Succeeds(cfg, now, site, Advance(cfg, now, zone, w, ev, armedAt), script)
  {
    var todo := Advance(cfg, now, zone, w, ev, armedAt);
    AdvanceLegit(cfg, now, zone, w, ev, armedAt);
    if Moves(cfg, now, w, todo) || todo == Finish(w) {
      HelpsMove(cfg, now, site, w, todo, script);
    } else if todo.Set? || todo.Delete? {
      HelpsSet(cfg, now, site, w, todo, script);
    } else {
      HelpsMarked(cfg, now, site, w, todo, script);
    }
  }

  lemma {:induction false} StaysBlocked(cfg: Config, now: Time, site: Site, v: Workflow, script: seq<Beat>)
    requires Lookup(site.mem, v.Id()).phase.Blocked? && Lookup(site.disk, v.Id()).phase.Blocked?
    ensures Lookup(Perform(cfg, now, site, Fail(v), script).mem, v.Id()).phase.Blocked?
  {
    Settled(cfg, now, site, Fail(v), script);
    ActiveThere(site.mem, v.Id());
    SettleLeaves(cfg, now, site, script, v.zone);
    var (s, rest) := Settle(cfg, now, site, script);
    AlikeLookup(site.mem, s.mem, v.Id());
    if s.disk != site.disk {
      AlikeLookup(site.mem, s.disk, v.Id());
    }
  }

  lemma StopBlocks(cfg: Config, now: Time, site: Site, v: Workflow, script: seq<Beat>)
    requires Obliging(cfg, now, site, Stop(v), script)
    ensures Lookup(Perform(cfg, now, site, Stop(v), script).mem, v.Id()).phase.Blocked?
  {
    Settled(cfg, now, site, Stop(v), script);
    ObligingSettled(cfg, now, site, Stop(v), script);
    var (s, rest) := Settle(cfg, now, site, script);
    WritesOne(cfg, now, Block(v.Id()), s.mem, BlockState(cfg, s.mem, v.Id(), now));
    StaysBlocked(cfg, now, Meet(cfg, now, s, Stop(v), rest[0].outcome).0, v, rest[1..]);
  }

  /** In a helpful world every plan that is neither idle nor a plain failure moves its workflow:
      it is blocked, ended, or strictly smaller. */
  lemma HelpMoves(cfg: Config, now: Time, zone: Zone, site: Site, w: Workflow, ev: Evidence, armedAt: Time,
                  script: seq<Beat>)
    requires ValidConfig(cfg) && now > 0 && Sound(cfg, w) && PositiveIds(ev.keys) && w.Active()
    requires Lookup(site.mem, w.Id()) == w
    requires Advance(cfg, now, zone, w, ev, armedAt) !in {Rest, Fail(w)}
    requires Obliging(cfg, now, site, Advance(cfg, now, zone, w, ev, armedAt), script)
    ensures var x := Lookup(Perform(cfg, now, site, Advance(cfg, now, zone, w, ev, armedAt), script).mem, w.Id());
            x.phase.Blocked? || Shrunk(w, x)
  {
    if Advance(cfg, now, zone, w, ev, armedAt) == Stop(w) {
      StopBlocks(cfg, now, site, w, script);
    } else {
      AnswersHelp(cfg, now, zone, site, w, ev, armedAt, script);
      SuccessShrinks(cfg, now, zone, site, w, ev, armedAt, script);
    }
  }

  // ---- no step makes a workflow larger ----------------------------------------------------------

  predicate NotLarger(x: Workflow, y: Workflow) {
    x.Active() && !x.phase.Blocked? ==> !y.Active() || y.phase.Blocked? || Measure(y) <= Measure(x)
  }

  lemma SteppedNotLarger(cfg: Config, x: Workflow, y: Workflow)
    requires Sound(cfg, x) && Sound(cfg, y) && Stepped(x, y)
    ensures NotLarger(x, y)
  {
    if Smaller(y, x) {
      MeasureShrinks(cfg, y, x);
    }
  }

  lemma WrittenNotLarger(cfg: Config, now: Time, e: Edit, s: State)
    requires ValidConfig(cfg) && now > 0 && StateSound(cfg, s) && Target(e).Some? && Legal(cfg, now, e, s)
    requires Apply(cfg, now, e, s).Some?
    ensures NotLarger(Lookup(s, Target(e).value), Written(now, e, s))
  {
    var x := Lookup(s, Target(e).value);
    assert x.Id() == Target(e).value && Sound(cfg, x);
    if e.Begin? {
      assert !AnyActive(s, e.name);
      match e.kind case ZSK => case KSK => case Split => case Enroll =>
    } else if e.Put? {
      MeasureShrinks(cfg, e.x, x);
    } else if !e.Block? {
      assert Stalled(x, Written(now, e, s));
    }
  }

  lemma BatchNotLarger(cfg: Config, now: Time, e: Edit, s: State, t: State, id: WorkflowId)
    requires ValidConfig(cfg) && now > 0 && StateSound(cfg, s) && StateSound(cfg, t) && Target(e).None?
    requires Legal(cfg, now, e, s) && Apply(cfg, now, e, s) == Some(t)
    ensures NotLarger(Lookup(s, id), Lookup(t, id))
  {
    assert Lookup(s, id).Id() == id && Sound(cfg, Lookup(s, id)) && Sound(cfg, Lookup(t, id));
    match e
    case TriggerAll(kind, zones, idem, _) =>
      StartedEach(s, kind, zones, idem, now, id);
      if idem !in s.idempotency && id.zone in zones {
        assert !AnyActive(s, id.zone);
        match id.kind case ZSK => case KSK => case Split => case Enroll =>
      }
    case ResumeAll(items, _, _) => ResumedEach(s, items, now, id);
    case Arm(listing, _) => BaselinedEach(s, listing, now, id);
    case Boot(zone, keys) => BootRecords(cfg, s, zone, keys, now, id);
    case Complete(w) => CompletedLookup(cfg, now, w, s, id);
    case Attest(w, ttl, _, _) => AttestNotLarger(cfg, now, s, t, w, ttl, id);
    case _ =>
  }

  lemma AttestNotLarger(cfg: Config, now: Time, s: State, t: State, w: Workflow, ttl: int, id: WorkflowId)
    requires now > 0 && StateSound(cfg, s) && StateSound(cfg, t) && Lookup(s, w.Id()) == w && ttl >= w.zoneTtl
    requires Lookup(t, id) == Lookup(s, id) || (id == w.Id() && w.phase.WaitNewSignature? && Lookup(t, id) == Attested(cfg, w, ttl, now))
    ensures NotLarger(Lookup(s, id), Lookup(t, id))
  {
    assert Sound(cfg, Lookup(s, id)) && Sound(cfg, Lookup(t, id));
    if ttl > w.zoneTtl && Lookup(t, id) == Attested(cfg, w, ttl, now) {
      MeasureShrinks(cfg, Lookup(t, id), Lookup(s, id));
    }
  }

  lemma EditNotLarger(cfg: Config, now: Time, e: Edit, s: State, t: State, id: WorkflowId)
    requires ValidConfig(cfg) && now > 0 && Logged(cfg, now, s) && Legal(cfg, now, e, s) && Apply(cfg, now, e, s) == Some(t)
    ensures NotLarger(Lookup(s, id), Lookup(t, id))
  {
    LoggedSound(cfg, now, s);
    LogEdit(cfg, now, e, s, t);
    LoggedSound(cfg, now, t);
    if Target(e).Some? {
      WritesOne(cfg, now, e, s, t);
      if Target(e).value == id {
        WrittenNotLarger(cfg, now, e, s);
      }
    } else {
      BatchNotLarger(cfg, now, e, s, t, id);
    }
  }

  // ---- one reconciliation ---------------------------------------------------------------------

  lemma BootKept(cfg: Config, now: Time, s: State, zone: Zone, keys: seq<Key>, id: WorkflowId)
    requires Lookup(s, id).Active()
    ensures Lookup(Bootstrap(cfg, s, zone, keys, now), id) == Lookup(s, id)
  {
    BootRecords(cfg, s, zone, keys, now, id);
  }

  /** Blocking one of several active workflows blocks this one or leaves it alone. */
  lemma BlockOnlyStepped(cfg: Config, now: Time, site: Site, zone: string, kind: Kind, id: WorkflowId, script: seq<Beat>)
    requires site.mem == site.disk && id.zone == zone && Lookup(site.mem, id).Active()
    ensures var y := Lookup(Perform(cfg, now, site, BlockOnly(zone, kind), script).mem, id);
            y.phase.Blocked? || y == Lookup(site.mem, id)
  {
    var edit := Block(WorkflowId(zone, kind));
    Settled(cfg, now, site, BlockOnly(zone, kind), script);
    ActiveThere(site.mem, id);
    SettleLeaves(cfg, now, site, script, zone);
    var (s, rest) := Settle(cfg, now, site, script);
    AlikeLookup(site.mem, s.mem, id);
    if s.disk != site.disk {
      AlikeLookup(site.mem, s.disk, id);
    }
    WritesOne(cfg, now, edit, s.mem, BlockState(cfg, s.mem, WorkflowId(zone, kind), now));
  }

  /** The plan of the workflow's own zone. */
  lemma PlanStepped(cfg: Config, now: Time, zone: Zone, site: Site, ev: Evidence, pick: nat, script: seq<Beat>,
                    id: WorkflowId)
    requires ValidConfig(cfg) && now > 0 && StateSound(cfg, site.mem) && PositiveIds(ev.keys) && site.mem == site.disk
    requires id.zone == zone.name && Lookup(site.mem, id).Active()
    ensures Stepped(Lookup(site.mem, id), Lookup(Perform(cfg, now, site, Reconcile(cfg, now, zone, site.mem, ev, pick), script).mem, id))
  {
    var w := Lookup(site.mem, id);
    var active := ActiveKinds(site.mem, zone.name);
    assert w.Id() == id && Sound(cfg, w);
    assert Stalled(w, w);
    ActiveThere(site.mem, id);
    ActiveOnes(site.mem, zone.name);
    ReconcileShape(cfg, now, zone, site.mem, ev, pick);
    if |active| > 1 {
      BlockOnlyStepped(cfg, now, site, zone.name, active[pick % |active|], id, script);
    } else {
      TheOne(site.mem, id);
      if Reconcile(cfg, now, zone, site.mem, ev, pick) == Advance(cfg, now, zone, w, ev, site.mem.armedAt) {
        NeverLarger(cfg, now, zone, site, w, ev, site.mem.armedAt, script);
      } else {
        BlockOnlyStepped(cfg, now, site, zone.name, Enroll, id, script);
      }
    }
  }

  lemma TheOne(s: State, id: WorkflowId)
    requires Lookup(s, id).Active() && |ActiveKinds(s, id.zone)| <= 1
    ensures ActiveKinds(s, id.zone) == [id.kind]
  {
    match id.kind case ZSK => case KSK => case Split => case Enroll =>
  }

  lemma PlanNotLarger(cfg: Config, w: World, a: Action, id: WorkflowId)
    requires BooksInv(cfg, w) && a.Reconciles? && a.zone.name in w.envs && Truthful(a.ev, w.envs[a.zone.name])
    requires w.mem == w.disk && Lookup(w.mem, id).Active()
    ensures var todo := Reconcile(cfg, w.now, a.zone, w.mem, a.ev, a.pick);
            var after := Perform(cfg, w.now, SiteOf(w, a.zone.name), todo, a.script);
            Stepped(Lookup(w.mem, id), Lookup(after.mem, id))
  {
    ListedPositive(a.ev.keys, w.envs[a.zone.name], w.now);
    LoggedSound(cfg, w.now, w.mem);
    var site := SiteOf(w, a.zone.name);
    if id.zone == a.zone.name {
      PlanStepped(cfg, w.now, a.zone, site, a.ev, a.pick, a.script, id);
    } else {
      ReconcileWithin(cfg, w.now, a.zone, w.mem, a.ev, a.pick);
      OtherRecord(cfg, w.now, a.zone.name, site, Reconcile(cfg, w.now, a.zone, w.mem, a.ev, a.pick), a.script, id, Lookup(w.mem, id));
      assert Stalled(Lookup(w.mem, id), Lookup(w.mem, id));
    }
  }

  lemma ReconcileNotLarger(cfg: Config, w: World, a: Action, id: WorkflowId)
    requires BooksInv(cfg, w) && a.Reconciles? && a.zone.name in w.envs && Truthful(a.ev, w.envs[a.zone.name])
    requires Concurrent(a.script, w.envs) && Lookup(w.mem, id).Active()
    ensures NotLarger(Lookup(w.mem, id), Lookup(ReconcileStep(cfg, w, a).mem, id))
  {
    var booted := SaveTo(cfg, w, Boot(a.zone, a.ev.keys), a.boot);
    BootKept(cfg, w.now, w.mem, a.zone, a.ev.keys, id);
    if a.boot.Saved? {
      ListedPositive(a.ev.keys, w.envs[a.zone.name], w.now);
      SaveOnward(cfg, w, Boot(a.zone, a.ev.keys), a.boot);
      SaveKeepsRest(cfg, w, Boot(a.zone, a.ev.keys), a.boot);
      PlanNotLarger(cfg, booted, a, id);
      ReconcileOnward(cfg, w, a);
      var after := ReconcileStep(cfg, w, a);
      LoggedSound(cfg, after.now, after.mem);
      LoggedSound(cfg, w.now, w.mem);
      assert Sound(cfg, Lookup(w.mem, id)) && Sound(cfg, Lookup(after.mem, id));
      SteppedNotLarger(cfg, Lookup(w.mem, id), Lookup(after.mem, id));
    }
  }

  // ---- one action -----------------------------------------------------------------------------

  lemma RestartNotLarger(cfg: Config, w: World, id: WorkflowId)
    requires BooksInv(cfg, w)
    ensures NotLarger(Lookup(w.mem, id), Lookup(w.disk, id))
  {
    if w.disk != w.mem {
      var e, at: Time :| 0 < at <= w.now && Logged(cfg, at, w.mem) && Legal(cfg, at, e, w.mem) && Apply(cfg, at, e, w.mem) == Some(w.disk);
      EditNotLarger(cfg, at, e, w.mem, w.disk, id);
    }
  }

  lemma SaveNotLarger(cfg: Config, w: World, edit: Edit, io: Io, id: WorkflowId)
    requires BooksInv(cfg, w) && Legal(cfg, w.now, edit, w.mem)
    ensures NotLarger(Lookup(w.mem, id), Lookup(SaveTo(cfg, w, edit, io).mem, id))
  {
    var next := Apply(cfg, w.now, edit, w.mem);
    if next.Some? {
      EditNotLarger(cfg, w.now, edit, w.mem, next.value, id);
    }
  }

  /** No action of a run makes an active workflow larger. */
  lemma NextNotLarger(cfg: Config, w: World, a: Action, id: WorkflowId)
    requires BooksInv(cfg, w)
    ensures NotLarger(Lookup(w.mem, id), Lookup(Next(cfg, w, a).mem, id))
  {
    if a.Reconciles? {
      if a.zone.name in w.envs && Truthful(a.ev, w.envs[a.zone.name]) && Concurrent(a.script, w.envs) && Lookup(w.mem, id).Active() {
        ReconcileNotLarger(cfg, w, a, id);
      }
    } else if a.Restarts? {
      RestartNotLarger(cfg, w, id);
    } else if a.Waits? || a.Shifts? {
    } else if Demand(cfg, w, a).Some? {
      DemandLegal(cfg, w, a);
      SaveNotLarger(cfg, w, Demand(cfg, w, a).value, Reach(a), id);
    }
  }

  /** A reconciliation in which the handler of this workflow does something and succeeds. */
  ghost predicate Effective(cfg: Config, w: World, id: WorkflowId, a: Action) {
    && a.Reconciles? && a.zone.name == id.zone && id.zone in w.envs
    && Truthful(a.ev, w.envs[id.zone]) && Concurrent(a.script, w.envs) && a.boot.Saved?
    && var booted := SaveTo(cfg, w, Boot(a.zone, a.ev.keys), a.boot);
       var todo := Reconcile(cfg, w.now, a.zone, booted.mem, a.ev, a.pick);
    && todo == Advance(cfg, w.now, a.zone, Lookup(booted.mem, id), a.ev, booted.mem.armedAt) && todo != Rest
    && Succeeds(cfg, w.now, SiteOf(booted, id.zone), todo, a.script)
  }

  lemma EffectiveShrinks(cfg: Config, w: World, id: WorkflowId, a: Action)
    requires BooksInv(cfg, w) && Effective(cfg, w, id, a) && Lookup(w.mem, id).Active()
    ensures Shrunk(Lookup(w.mem, id), Lookup(Next(cfg, w, a).mem, id))
  {
    var booted := SaveTo(cfg, w, Boot(a.zone, a.ev.keys), a.boot);
    var x := Lookup(w.mem, id);
    BootKept(cfg, w.now, w.mem, a.zone, a.ev.keys, id);
    ListedPositive(a.ev.keys, w.envs[id.zone], w.now);
    LoggedSound(cfg, w.now, w.mem);
    assert x.Id() == id && Sound(cfg, x);
    SaveKeepsRest(cfg, w, Boot(a.zone, a.ev.keys), a.boot);
    SuccessShrinks(cfg, w.now, a.zone, SiteOf(booted, id.zone), x, a.ev, booted.mem.armedAt, a.script);
  }

  // ---- runs -------------------------------------------------------------------------------------

  /** The effective reconciliations of a run. */
  ghost function Effects(cfg: Config, w: World, actions: seq<Action>, id: WorkflowId): nat {
    if actions == [] then 0
    else
      var shorter := actions[..|actions| - 1];
      Effects(cfg, w, shorter, id) + One(Effective(cfg, Run(cfg, w, shorter), id, actions[|actions| - 1]))
  }

  /** The workflow is active and not blocked at every point of the run. */
  ghost predicate Underway(cfg: Config, w: World, actions: seq<Action>, id: WorkflowId) {
    forall k | 0 <= k <= |actions| :: var x := Lookup(Run(cfg, w, actions[..k]).mem, id); x.Active() && !x.phase.Blocked?
  }

  lemma OneStep(cfg: Config, w: World, a: Action, id: WorkflowId)
    requires BooksInv(cfg, w)
    requires forall v | v == w || v == Next(cfg, w, a) :: Lookup(v.mem, id).Active() && !Lookup(v.mem, id).phase.Blocked?
    ensures Measure(Lookup(Next(cfg, w, a).mem, id)) + One(Effective(cfg, w, id, a)) <= Measure(Lookup(w.mem, id))
  {
    NextNotLarger(cfg, w, a, id);
    if Effective(cfg, w, id, a) {
      EffectiveShrinks(cfg, w, id, a);
    }
  }

  lemma MeasureCounts(cfg: Config, w: World, id: WorkflowId)
    requires BooksInv(cfg, w)
    ensures 0 < Measure(Lookup(w.mem, id))
  {
    LoggedSound(cfg, w.now, w.mem);
    assert Sound(cfg, Lookup(w.mem, id));
  }

  /** However a run goes on, through restarts, failed writes, lost responses and control calls:
      as long as the workflow is under way, the reconciliations that succeed are bounded by the
      size it began with. */
  lemma {:induction false} Terminates(cfg: Config, w: World, actions: seq<Action>, id: WorkflowId)
    requires BooksInv(cfg, w) && Underway(cfg, w, actions, id)
    ensures var x, y := Lookup(w.mem, id), Lookup(Run(cfg, w, actions).mem, id);
            0 < Measure(y) && Effects(cfg, w, actions, id) + Measure(y) <= Measure(x)
  {
    assert actions[..|actions|] == actions;
    RunBooks(cfg, w, actions);
    MeasureCounts(cfg, Run(cfg, w, actions), id);
    if actions != [] {
      var shorter := actions[..|actions| - 1];
      RunBooks(cfg, w, shorter);
      UnderwayPrefix(cfg, w, actions, id);
      Terminates(cfg, w, shorter, id);
      OneStep(cfg, Run(cfg, w, shorter), actions[|actions| - 1], id);
    }
  }

  lemma UnderwayPrefix(cfg: Config, w: World, actions: seq<Action>, id: WorkflowId)
    requires actions != [] && Underway(cfg, w, actions, id)
    ensures var shorter := actions[..|actions| - 1];
            Underway(cfg, w, shorter, id) && Lookup(Run(cfg, w, shorter).mem, id).Active()
            && !Lookup(Run(cfg, w, shorter).mem, id).phase.Blocked?
  {
    var shorter := actions[..|actions| - 1];
    forall k | 0 <= k <= |shorter|
      ensures var x := Lookup(Run(cfg, w, shorter[..k]).mem, id); x.Active() && !x.phase.Blocked?
    {
      assert shorter[..k] == actions[..k];
    }
    assert shorter[..|shorter|] == shorter;
  }

  // ---- a helpful world --------------------------------------------------------------------------

  /** The clock once the workflow is due. */
  ghost function WhenDue(cfg: Config, w: World, id: WorkflowId): World {
    Next(cfg, w, Waits(Max(w.now, Lookup(w.mem, id).nextAt)))
  }

  /** What happens outside in the meantime, and the reconciliation then. */
  datatype Help = Help(meantime: seq<Action>, reconcile: Action)

  /** `n` rounds: wait until the workflow is due, let the outside act, reconcile; nothing more
      once it is idle. */
  ghost function Driven(cfg: Config, w: World, id: WorkflowId, help: World -> Help, n: nat): World {
    if n == 0 then w
    else
      var before := Driven(cfg, w, id, help, n - 1);
      if !Lookup(before.mem, id).Active() then before
      else
        var due := WhenDue(cfg, before, id);
        Next(cfg, Run(cfg, due, help(due).meantime), help(due).reconcile)
  }

  /** A reconciliation of the one active workflow of its zone in a helpful world: the evidence
      is truthful and suffices, updates are saved, calls are carried out and answered. */
  ghost predicate Helpful(cfg: Config, w: World, id: WorkflowId, a: Action) {
    && a.Reconciles? && a.zone.name == id.zone && id.zone in w.envs
    && Truthful(a.ev, w.envs[id.zone]) && Concurrent(a.script, w.envs) && a.boot.Saved?
    && var booted := SaveTo(cfg, w, Boot(a.zone, a.ev.keys), a.boot);
       var x := Lookup(booted.mem, id);
    && ActiveKinds(booted.mem, id.zone) == [id.kind] && x.nextAt <= w.now
    && (id.kind.Enroll? && x.reg.attemptedAt == UNSET ==> cfg.enrollEnabled && id.zone in cfg.enrollScope)
    && Suffices(cfg, w.now, a.zone, x, a.ev, booted.mem.armedAt)
    && Obliging(cfg, w.now, SiteOf(booted, id.zone), Advance(cfg, w.now, a.zone, x, a.ev, booted.mem.armedAt), a.script)
  }

  /** The round after the k-th meets a helpful world, if there is anything left to do. */
  ghost predicate Helped(cfg: Config, w: World, id: WorkflowId, help: World -> Help, k: nat) {
    var v := Driven(cfg, w, id, help, k);
    Lookup(v.mem, id).Active() ==>
      var due := WhenDue(cfg, v, id);
      && (forall a <- help(due).meantime :: a.Shifts?)
      && Helpful(cfg, Run(cfg, due, help(due).meantime), id, help(due).reconcile)
  }

  lemma HelpfulEffective(cfg: Config, w: World, id: WorkflowId, a: Action)
    requires BooksInv(cfg, w) && Helpful(cfg, w, id, a) && Lookup(w.mem, id).Active()
    ensures Effective(cfg, w, id, a)
  {
    var booted := SaveTo(cfg, w, Boot(a.zone, a.ev.keys), a.boot);
    BootKept(cfg, w.now, w.mem, a.zone, a.ev.keys, id);
    ListedPositive(a.ev.keys, w.envs[id.zone], w.now);
    LoggedSound(cfg, w.now, w.mem);
    SaveKeepsRest(cfg, w, Boot(a.zone, a.ev.keys), a.boot);
    var x := Lookup(w.mem, id);
    assert x.Id() == id && Sound(cfg, x);
    SufficesExactly(cfg, w.now, a.zone, x, a.ev, booted.mem.armedAt);
    AnswersHelp(cfg, w.now, a.zone, SiteOf(booted, id.zone), x, a.ev, booted.mem.armedAt, a.script);
  }

  lemma DueBooks(cfg: Config, w: World, id: WorkflowId)
    requires BooksInv(cfg, w)
    ensures BooksInv(cfg, WhenDue(cfg, w, id)) && WhenDue(cfg, w, id).mem == w.mem
  {
    NextOnward(cfg, w, Waits(Max(w.now, Lookup(w.mem, id).nextAt)));
  }

  lemma RoundShrinks(cfg: Config, w: World, due: World, id: WorkflowId, a: Action)
    requires BooksInv(cfg, due) && due.mem == w.mem && Lookup(w.mem, id).Active() && Helpful(cfg, due, id, a)
    ensures BooksInv(cfg, Next(cfg, due, a)) && Shrunk(Lookup(w.mem, id), Lookup(Next(cfg, due, a).mem, id))
  {
    NextOnward(cfg, due, a);
    HelpfulEffective(cfg, due, id, a);
    EffectiveShrinks(cfg, due, id, a);
  }

  lemma {:induction false} MeantimeKeeps(cfg: Config, w: World, actions: seq<Action>)
    requires forall a <- actions :: a.Shifts?
    ensures var after := Run(cfg, w, actions); after.mem == w.mem && after.disk == w.disk && after.now == w.now
  {
    if actions != [] {
      var shorter, last := actions[..|actions| - 1], actions[|actions| - 1];
      assert actions == shorter + [last];
      assert last in actions && forall a <- shorter :: a in actions;
      MeantimeKeeps(cfg, w, shorter);
    }
  }

  lemma DrivenStep(cfg: Config, w: World, id: WorkflowId, help: World -> Help, n: nat)
    requires BooksInv(cfg, Driven(cfg, w, id, help, n)) && Helped(cfg, w, id, help, n)
    ensures var v, u := Driven(cfg, w, id, help, n), Driven(cfg, w, id, help, n + 1);
            && BooksInv(cfg, u) && (!Lookup(v.mem, id).Active() ==> u == v)
            && (Lookup(v.mem, id).Active() ==> Shrunk(Lookup(v.mem, id), Lookup(u.mem, id)))
  {
    var v := Driven(cfg, w, id, help, n);
    if Lookup(v.mem, id).Active() {
      var due := WhenDue(cfg, v, id);
      DueBooks(cfg, v, id);
      MeantimeKeeps(cfg, due, help(due).meantime);
      RunBooks(cfg, due, help(due).meantime);
      RoundShrinks(cfg, v, Run(cfg, due, help(due).meantime), id, help(due).reconcile);
    }
  }

  lemma {:induction false} DrivenShrinks(cfg: Config, w: World, id: WorkflowId, help: World -> Help, n: nat)
    requires BooksInv(cfg, w)
    requires forall k: nat :: Helped(cfg, w, id, help, k)
    ensures var v := Driven(cfg, w, id, help, n);
            BooksInv(cfg, v) && (Lookup(v.mem, id).Active() ==> Measure(Lookup(v.mem, id)) + n <= Measure(Lookup(w.mem, id)))
  {
    if n > 0 {
      DrivenShrinks(cfg, w, id, help, n - 1);
      assert Helped(cfg, w, id, help, n - 1);
      DrivenStep(cfg, w, id, help, n - 1);
    }
  }

  /** In a helpful world the workflow is idle after at most as many rounds as it is large. */
  lemma ReachesIdle(cfg: Config, w: World, id: WorkflowId, help: World -> Help) returns (n: nat)
    requires BooksInv(cfg, w)
    requires forall k: nat :: Helped(cfg, w, id, help, k)
    ensures n <= Measure(Lookup(w.mem, id)) && !Lookup(Driven(cfg, w, id, help, n).mem, id).Active()
  {
    MeasureCounts(cfg, w, id);
    n := Measure(Lookup(w.mem, id));
    DrivenShrinks(cfg, w, id, help, n);
    MeasureCounts(cfg, Driven(cfg, w, id, help, n), id);
  }
}
