/** When a plan is safe: whatever each of its steps meets, and wherever it is cut off, the
    zone invariant holds of memory and of disk. One rule per kind of step. */
module Safety {
  import opened Model
  import opened Inventory
  import opened Edits
  import opened Plans
  import opened World
  import opened Facts
  import opened Good
  import opened Races

  ghost predicate StateInv(cfg: Config, s: State, zone: string, e: Env, now: Time) {
    WellFiled(RecordsOf(s, zone), zone) && ZoneInv(cfg, RecordsOf(s, zone), e, now)
  }

  ghost predicate SiteInv(cfg: Config, zone: string, now: Time, site: Site) {
    && EnvInv(site.env, now)
    && StateInv(cfg, site.mem, zone, site.env, now) && StateInv(cfg, site.disk, zone, site.env, now)
  }

  /** What the Trigger checked is true of the zone. */
  predicate Grounded(req: Request, zone: string, e: Env) {
    zone in req.zones && req.kind.Split? ==>
      zone in req.lists && Lists(req.lists[zone], e.keys) && KeyScheme(req.lists[zone]).CskScheme?
  }

  predicate AllFit(script: seq<Beat>, zone: string, e: Env) { forall b <- script | b.Slips? :: Grounded(b.req, zone, e) }

  /** Carried out on any stores with these records of the zone, against any script, the plan
      keeps the invariant. */
  ghost predicate Safe(cfg: Config, zone: string, now: Time, mem: State, disk: State, e: Env, todo: Todo) {
    forall site: Site, script: seq<Beat>
      | Alike(zone, mem, site.mem) && Alike(zone, disk, site.disk) && site.env == e
        && (AnyActive(mem, zone) || AllFit(script, zone, e)) ::
      EndsWell(cfg, zone, now, site, todo, script)
  }

  ghost predicate EndsWell(cfg: Config, zone: string, now: Time, site: Site, todo: Todo, script: seq<Beat>) {
    SiteInv(cfg, zone, now, Perform(cfg, now, site, todo, script))
  }

  /** A handler at work on w: memory and disk agree on the zone, w is due, and it is the
      only active workflow of its zone. */
  ghost predicate Handling(cfg: Config, now: Time, mem: State, disk: State, e: Env, w: Workflow) {
    && SiteInv(cfg, w.zone, now, Site(mem, disk, e, []))
    && RecordsOf(disk, w.zone) == RecordsOf(mem, w.zone)
    && Lookup(mem, w.Id()) == w && OnlyActive(RecordsOf(mem, w.zone), w.kind)
    && w.nextAt <= now
    && GoodRecord(w, e, cfg.margin, now)
  }

  // ---- records -----------------------------------------------------------------------

  lemma Replaced(s: State, x: Workflow)
    ensures RecordsOf(WithRecord(s, x), x.zone)
         == match x.kind
            case ZSK => RecordsOf(s, x.zone).(zsk := x)
            case KSK => RecordsOf(s, x.zone).(ksk := x)
            case Split => RecordsOf(s, x.zone).(split := x)
            case Enroll => RecordsOf(s, x.zone).(enroll := x)
  {}

  /** Writing a good record over the only active one. */
  lemma GoodWrite(cfg: Config, s: State, x: Workflow, e: Env, now: Time)
    requires EnvInv(e, now) && StateInv(cfg, s, x.zone, e, now) && OnlyActive(RecordsOf(s, x.zone), x.kind)
    requires x.Active() && GoodRecord(x, e, cfg.margin, now)
    ensures StateInv(cfg, WithRecord(s, x), x.zone, e, now)
    ensures OnlyActive(RecordsOf(WithRecord(s, x), x.zone), x.kind)
  {
    Replaced(s, x);
    GoodIsSafe(x, e, cfg.margin, now);
    var r := RecordsOf(WithRecord(s, x), x.zone);
    assert RecordOf(r, x.kind) == x;
    forall other: Kind | other != x.kind
      ensures RecordOf(r, other) == RecordOf(RecordsOf(s, x.zone), other)
    {}
    assert !NoneActive(r) by {
      assert RecordOf(r, x.kind).Active();
    }
    forall kind: Kind | OnlyActive(r, kind)
      ensures kind == x.kind
    {}
  }

  lemma RetryZsk(w: Workflow, e: Env, m: Time, now: Time, z: int, k: int, u: Time)
    requires GoodZsk(w, e, m, now, z, k) && w.nextAt <= u
    ensures forall a: nat :: GoodZsk(w.(attempts := a, nextAt := u), e, m, now, z, k)
  {
    Later(e, m, w.nextAt, u);
  }

  lemma RetryKsk(w: Workflow, e: Env, m: Time, now: Time, z: int, k: int, u: Time)
    requires GoodKsk(w, e, m, now, z, k) && w.nextAt <= u
    ensures forall a: nat :: GoodKsk(w.(attempts := a, nextAt := u), e, m, now, z, k)
  {
    Later(e, m, w.nextAt, u);
  }

  lemma RetrySplit(w: Workflow, e: Env, m: Time, now: Time, z: int, u: Time)
    requires GoodSplit(w, e, m, now, z) && w.nextAt <= u
    ensures forall a: nat :: GoodSplit(w.(attempts := a, nextAt := u), e, m, now, z)
  {
    Later(e, m, w.nextAt, u);
  }

  /** A retry never brings a wait forward, so it keeps what the wait guarantees. */
  lemma RetryGood(w: Workflow, e: Env, m: Time, now: Time)
    requires GoodRecord(w, e, m, now) && (w.nextAt <= now || w.phase.Blocked?)
    ensures GoodRecord(Retried(w, now), e, m, now)
  {
    BackoffBounds(w.attempts + 1);
    var x := Retried(w, now);
    if w.phase.Blocked? {
    } else if w.kind.ZSK? {
      var z, k :| GoodZsk(w, e, m, now, z, k);
      RetryZsk(w, e, m, now, z, k, x.nextAt);
    } else if w.kind.KSK? {
      var z, k :| GoodKsk(w, e, m, now, z, k);
      RetryKsk(w, e, m, now, z, k, x.nextAt);
    } else if w.kind.Split? {
      var z :| GoodSplit(w, e, m, now, z);
      RetrySplit(w, e, m, now, z, x.nextAt);
    } else {
      var z, k :| GoodEnroll(w, e, m, now, z, k);
      Later(e, m, w.nextAt, x.nextAt);
      assert GoodEnroll(x, e, m, now, z, k);
    }
  }

  /** Blocking forgets the phase; only a split migration that never reached the registrar
      keeps what a resume needs. */
  lemma BlockGood(w: Workflow, e: Env, m: Time, now: Time)
    requires EnvInv(e, now) && GoodRecord(w, e, m, now)
    requires w.kind.Split? && w.phase.ParentRemove? ==> !w.reg.ctid.NoCtid?
    ensures GoodRecord(BlockedRecord(w), e, m, now)
  {
    GoodIsSafe(w, e, m, now);
    if w.kind.Split? && !w.phase.Blocked? {
      var z :| GoodSplit(w, e, m, now, z);
    }
  }

  // ---- rules -------------------------------------------------------------------------

  lemma AlikeInv(cfg: Config, zone: string, now: Time, mem: State, disk: State, e: Env, site: Site)
    requires SiteInv(cfg, zone, now, Site(mem, disk, e, []))
    requires Alike(zone, mem, site.mem) && Alike(zone, disk, site.disk) && site.env == e
    ensures SiteInv(cfg, zone, now, site)
  {}

  lemma SafeEnds(cfg: Config, zone: string, now: Time, site: Site, todo: Todo, script: seq<Beat>)
    requires Safe(cfg, zone, now, site.mem, site.disk, site.env, todo) && AllFit(script, zone, site.env)
    ensures SiteInv(cfg, zone, now, Perform(cfg, now, site, todo, script))
  {
    assert EndsWell(cfg, zone, now, site, todo, script);
  }

  lemma SafeRest(cfg: Config, zone: string, now: Time, mem: State, disk: State, e: Env)
    requires SiteInv(cfg, zone, now, Site(mem, disk, e, []))
    ensures Safe(cfg, zone, now, mem, disk, e, Rest)
  {
    forall site: Site, script: seq<Beat> | Alike(zone, mem, site.mem) && Alike(zone, disk, site.disk) && site.env == e
      ensures EndsWell(cfg, zone, now, site, Rest, script)
    {
      AlikeInv(cfg, zone, now, mem, disk, e, site);
    }
  }

  lemma WrittenAlike(now: Time, edit: Edit, zone: string, a: State, b: State)
    requires Target(edit).Some? && Target(edit).value.zone == zone && Alike(zone, a, b)
    ensures Lookup(a, Target(edit).value) == Lookup(b, Target(edit).value)
    ensures Written(now, edit, a) == Written(now, edit, b)
  {
    match Target(edit).value.kind case ZSK => case KSK => case Split => case Enroll =>
  }

  lemma AppliedAlike(cfg: Config, now: Time, edit: Edit, zone: string, a: State, b: State)
    requires Scoped(edit, zone) && Alike(zone, a, b)
    ensures var s, t := Apply(cfg, now, edit, a), Apply(cfg, now, edit, b);
            s.Some? == t.Some? && (s.Some? ==> Alike(zone, s.value, t.value))
  {
    var s, t := Apply(cfg, now, edit, a), Apply(cfg, now, edit, b);
    if edit.Complete? {
      CompletedAlike(cfg, now, edit.w, a, b);
    } else {
      WrittenAlike(now, edit, zone, a, b);
      if s.Some? {
        WritesOne(cfg, now, edit, a, s.value);
        WritesOne(cfg, now, edit, b, t.value);
      }
    }
  }

  lemma CompletedAlike(cfg: Config, now: Time, w: Workflow, a: State, b: State)
    requires Alike(w.zone, a, b)
    ensures Alike(w.zone, CompleteState(cfg, a, w, now), CompleteState(cfg, b, w, now))
  {
    var s, t := CompleteState(cfg, a, w, now), CompleteState(cfg, b, w, now);
    forall kind: Kind
      ensures Lookup(s, WorkflowId(w.zone, kind)) == Lookup(t, WorkflowId(w.zone, kind))
    {
      CompletedLookup(cfg, now, w, a, WorkflowId(w.zone, kind));
      CompletedLookup(cfg, now, w, b, WorkflowId(w.zone, kind));
      match kind case ZSK => case KSK => case Split => case Enroll =>
    }
    SameRecords(s, t, w.zone);
  }

  /** What both outcomes of an update need; the file may fall back to what memory holds. */
  ghost predicate SafeUpdateNeeds(cfg: Config, zone: string, now: Time, mem: State, disk: State, e: Env, edit: Edit,
                                  ok: Todo, fail: Todo)
  {
    && SiteInv(cfg, zone, now, Site(mem, disk, e, [])) && AnyActive(mem, zone) && Scoped(edit, zone)
    && (Apply(cfg, now, edit, mem).Some? ==>
          var s := Apply(cfg, now, edit, mem).value;
          && StateInv(cfg, s, zone, e, now) && (ok.Rest? || AnyActive(s, zone))
          && Safe(cfg, zone, now, s, s, e, ok) && Safe(cfg, zone, now, mem, s, e, fail))
    && Safe(cfg, zone, now, mem, disk, e, fail) && Safe(cfg, zone, now, mem, mem, e, fail)
  }

  lemma SafePersist(cfg: Config, zone: string, now: Time, mem: State, disk: State, e: Env, edit: Edit, ok: Todo,
                    fail: Todo)
    requires SafeUpdateNeeds(cfg, zone, now, mem, disk, e, edit, ok, fail)
    ensures Safe(cfg, zone, now, mem, disk, e, Persist(edit, ok, fail))
  {
    forall site: Site, script: seq<Beat> | Alike(zone, mem, site.mem) && Alike(zone, disk, site.disk) && site.env == e
      ensures EndsWell(cfg, zone, now, site, Persist(edit, ok, fail), script)
    {
      Settled(cfg, now, site, Persist(edit, ok, fail), script);
      SettleLeaves(cfg, now, site, script, zone);
      var (s, rest) := Settle(cfg, now, site, script);
      if rest == [] {
        AlikeInv(cfg, zone, now, mem, if Alike(zone, disk, s.disk) then disk else mem, e, s);
      } else {
        PersistMet(cfg, zone, now, mem, disk, e, edit, ok, fail, s, rest[0].outcome, rest[1..]);
      }
    }
  }

  lemma PersistMet(cfg: Config, zone: string, now: Time, mem: State, disk: State, e: Env, edit: Edit, ok: Todo,
                   fail: Todo, site: Site, o: Outcome, script: seq<Beat>)
    requires SafeUpdateNeeds(cfg, zone, now, mem, disk, e, edit, ok, fail)
    requires Alike(zone, mem, site.mem) && (Alike(zone, disk, site.disk) || Alike(zone, mem, site.disk)) && site.env == e
    ensures var step := Meet(cfg, now, site, Persist(edit, ok, fail), o);
            EndsWell(cfg, zone, now, step.0, step.1, script)
  {
    AppliedAlike(cfg, now, edit, zone, mem, site.mem);
    var step := Meet(cfg, now, site, Persist(edit, ok, fail), o);
    var next := Apply(cfg, now, edit, mem);
    if next.None? || o.io.NotSaved? {
      assert EndsWell(cfg, zone, now, step.0, fail, script);
    } else if o.io.SavedUnseen? {
      assert EndsWell(cfg, zone, now, step.0, fail, script);
    } else if !ok.Rest? {
      assert EndsWell(cfg, zone, now, step.0, ok, script);
    } else {
      AlikeInv(cfg, zone, now, next.value, next.value, e, step.0);
    }
  }

  /** Recording a retry, whatever else is on disk. */
  lemma SafeFail(cfg: Config, now: Time, mem: State, disk: State, e: Env, w: Workflow)
    requires SiteInv(cfg, w.zone, now, Site(mem, disk, e, []))
    requires var cur := Lookup(mem, w.Id());
             && OnlyActive(RecordsOf(mem, w.zone), w.kind) && cur.Id() == w.Id()
             && (cur.nextAt <= now || cur.phase.Blocked?)
    ensures Safe(cfg, w.zone, now, mem, disk, e, Fail(w))
  {
    var cur := Lookup(mem, w.Id());
    assert RecordOf(RecordsOf(mem, w.zone), w.kind) == cur;
    RetryGood(cur, e, cfg.margin, now);
    GoodWrite(cfg, mem, Retried(cur, now), e, now);
    var s := WithRecord(mem, Retried(cur, now));
    SafeRest(cfg, w.zone, now, s, s, e);
    SafeRest(cfg, w.zone, now, mem, s, e);
    SafeRest(cfg, w.zone, now, mem, disk, e);
    SafeRest(cfg, w.zone, now, mem, mem, e);
    SafePersist(cfg, w.zone, now, mem, disk, e, Retry(w.Id()), Rest, Rest);
  }

  lemma HandlingActive(cfg: Config, now: Time, mem: State, disk: State, e: Env, w: Workflow)
    requires Handling(cfg, now, mem, disk, e, w)
    ensures AnyActive(mem, w.zone) && w.Active()
  {
    assert RecordOf(RecordsOf(mem, w.zone), w.kind) == w;
  }

  /** An update of the handler at work, followed by a retry if it fails. */
  lemma SafeSave(cfg: Config, now: Time, mem: State, disk: State, e: Env, w: Workflow, edit: Edit, ok: Todo)
    requires Handling(cfg, now, mem, disk, e, w) && Scoped(edit, w.zone)
    requires Apply(cfg, now, edit, mem).Some? ==>
               var s := Apply(cfg, now, edit, mem).value;
               StateInv(cfg, s, w.zone, e, now) && (ok.Rest? || AnyActive(s, w.zone)) && Safe(cfg, w.zone, now, s, s, e, ok)
    ensures Safe(cfg, w.zone, now, mem, disk, e, Persist(edit, ok, Fail(w)))
  {
    HandlingActive(cfg, now, mem, disk, e, w);
    var next := Apply(cfg, now, edit, mem);
    if next.Some? {
      SafeFail(cfg, now, mem, next.value, e, w);
    }
    SafeFail(cfg, now, mem, disk, e, w);
    SafeFail(cfg, now, mem, mem, e, w);
    SafePersist(cfg, w.zone, now, mem, disk, e, edit, ok, Fail(w));
  }

  lemma BlockRecords(cfg: Config, s: State, w: Workflow, now: Time)
    requires Lookup(s, w.Id()) == w
    ensures RecordsOf(BlockState(cfg, s, w.Id(), now), w.zone) == RecordsOf(WithRecord(s, BlockedRecord(w)), w.zone)
  {}

  /** A blocked record on disk alone, in memory too, or nowhere. */
  lemma SafeStop(cfg: Config, now: Time, mem: State, disk: State, e: Env, w: Workflow)
    requires Handling(cfg, now, mem, disk, e, w)
    requires w.kind.Split? && w.phase.ParentRemove? ==> !w.reg.ctid.NoCtid?
    ensures Safe(cfg, w.zone, now, mem, disk, e, Stop(w))
  {
    var x := BlockedRecord(w);
    BlockGood(w, e, cfg.margin, now);
    GoodWrite(cfg, mem, x, e, now);
    BlockRecords(cfg, mem, w, now);
    var s := BlockState(cfg, mem, w.Id(), now);
    SafeFail(cfg, now, s, s, e, w);
    SafeSave(cfg, now, mem, disk, e, w, Block(w.Id()), Fail(w));
  }

  lemma SafeGo(cfg: Config, now: Time, mem: State, disk: State, e: Env, w: Workflow, x: Workflow)
    requires Handling(cfg, now, mem, disk, e, w)
    requires x.Id() == w.Id() && x.Active() && GoodRecord(x, e, cfg.margin, now)
    ensures Safe(cfg, w.zone, now, mem, disk, e, Go(w, x))
  {
    GoodWrite(cfg, mem, x, e, now);
    var s := WithRecord(mem, x);
    SafeRest(cfg, w.zone, now, s, s, e);
    SafeSave(cfg, now, mem, disk, e, w, Put(x), Rest);
  }

  /** An intent marker is saved before the call that follows it is made. */
  lemma SafeMark(cfg: Config, now: Time, mem: State, disk: State, e: Env, w: Workflow, edit: Edit, x: Workflow,
                 ok: Todo)
    requires Handling(cfg, now, mem, disk, e, w)
    requires x.Id() == w.Id() && x.Active() && x.nextAt <= now && GoodRecord(x, e, cfg.margin, now)
    requires Apply(cfg, now, edit, mem) == Some(WithRecord(mem, x)) && Scoped(edit, w.zone)
    requires Handling(cfg, now, WithRecord(mem, x), WithRecord(mem, x), e, x)
             ==> Safe(cfg, w.zone, now, WithRecord(mem, x), WithRecord(mem, x), e, ok)
    ensures Safe(cfg, w.zone, now, mem, disk, e, Persist(edit, ok, Fail(w)))
  {
    GoodWrite(cfg, mem, x, e, now);
    var s := WithRecord(mem, x);
    assert Handling(cfg, now, s, s, e, x);
    HandlingActive(cfg, now, s, s, e, x);
    SafeSave(cfg, now, mem, disk, e, w, edit, ok);
  }

  lemma CompletedRecords(cfg: Config, s: State, w: Workflow, now: Time)
    requires WellFiled(RecordsOf(s, w.zone), w.zone)
    ensures RecordsOf(CompleteState(cfg, s, w, now), w.zone)
         == AfterCompletion(RecordsOf(s, w.zone), w, Completed(w, Lookup(s, w.Id()), now), now)
  {}

  function AfterCompletion(r: Records, w: Workflow, x: Workflow, now: Time): Records {
    match w.kind
    case ZSK => r.(zsk := x)
    case KSK => r.(ksk := x)
    case Split => r.(split := x)
    case Enroll => Records(r.zsk.(phase := Idle, completedAt := now), r.ksk.(phase := Idle, completedAt := now), r.split, x)
  }

  /** Once no record is active, the zone only has to be between workflows. */
  lemma NoneGood(cfg: Config, r: Records, e: Env, now: Time)
    requires NoneActive(r) && Clean(r.zsk) && Clean(r.ksk) && Clean(r.split)
    requires EnvInv(e, now) && Steady(e, cfg.margin, now)
    ensures ZoneInv(cfg, r, e, now)
  {
    var z, k :| SteadyAt(e, cfg.margin, z, k, now);
    OpeningIsSafe(e, cfg.margin, now, z, k);
    forall kind: Kind
      ensures !OnlyActive(r, kind)
    {
      match kind case ZSK => case KSK => case Split => case Enroll =>
    }
  }

  lemma OthersIdle(r: Records, kind: Kind)
    requires OnlyActive(r, kind)
    ensures !kind.ZSK? ==> !r.zsk.Active()
    ensures !kind.KSK? ==> !r.ksk.Active()
    ensures !kind.Split? ==> !r.split.Active()
    ensures !kind.Enroll? ==> !r.enroll.Active()
  {
    assert RecordOf(r, ZSK) == r.zsk && RecordOf(r, KSK) == r.ksk && RecordOf(r, Split) == r.split && RecordOf(r, Enroll) == r.enroll;
  }

  lemma FinishGood(cfg: Config, now: Time, s: State, e: Env, w: Workflow)
    requires EnvInv(e, now) && StateInv(cfg, s, w.zone, e, now) && Steady(e, cfg.margin, now)
    requires OnlyActive(RecordsOf(s, w.zone), w.kind)
    ensures StateInv(cfg, CompleteState(cfg, s, w, now), w.zone, e, now)
  {
    OthersIdle(RecordsOf(s, w.zone), w.kind);
    CompletedRecords(cfg, s, w, now);
    NoneGood(cfg, RecordsOf(CompleteState(cfg, s, w, now), w.zone), e, now);
  }

  /** Completion leaves the zone between workflows. */
  lemma SafeFinish(cfg: Config, now: Time, mem: State, disk: State, e: Env, w: Workflow)
    requires Handling(cfg, now, mem, disk, e, w) && Steady(e, cfg.margin, now)
    ensures Safe(cfg, w.zone, now, mem, disk, e, Finish(w))
  {
    FinishGood(cfg, now, mem, e, w);
    var s := CompleteState(cfg, mem, w, now);
    SafeRest(cfg, w.zone, now, s, s, e);
    SafeSave(cfg, now, mem, disk, e, w, Complete(w), Rest);
  }

  /** The zone's world changed under the handler; the record is still good in it. */
  lemma StillHandling(cfg: Config, now: Time, mem: State, disk: State, e: Env, e2: Env, w: Workflow)
    requires Handling(cfg, now, mem, disk, e, w) && EnvInv(e2, now) && GoodRecord(w, e2, cfg.margin, now)
    ensures Handling(cfg, now, mem, disk, e2, w)
  {
    GoodIsSafe(w, e2, cfg.margin, now);
    var r := RecordsOf(mem, w.zone);
    assert RecordOf(r, w.kind).Active();
    forall kind: Kind | OnlyActive(r, kind)
      ensures kind == w.kind
    {}
    assert RecordOf(r, w.kind) == w;
    assert !NoneActive(r);
  }

  lemma CallMet(cfg: Config, now: Time, a: Site, b: Site, todo: Todo, o: Outcome)
    requires !todo.Rest? && !todo.Persist? && a.env == b.env
    ensures var s, t := Meet(cfg, now, a, todo, o), Meet(cfg, now, b, todo, o);
            && s.0.env == t.0.env && s.1 == t.1
            && s.0.mem == a.mem && s.0.disk == a.disk && t.0.mem == b.mem && t.0.disk == b.disk
  {}

  /** A call is safe if what it may leave to do is safe in the world it may leave. */
  lemma SafeCall(cfg: Config, now: Time, mem: State, disk: State, e: Env, w: Workflow, todo: Todo)
    requires Handling(cfg, now, mem, disk, e, w) && !todo.Rest? && !todo.Persist?
    requires forall o :: var step := Meet(cfg, now, Site(mem, disk, e, []), todo, o);
               Safe(cfg, w.zone, now, mem, disk, step.0.env, step.1)
    ensures Safe(cfg, w.zone, now, mem, disk, e, todo)
  {
    HandlingActive(cfg, now, mem, disk, e, w);
    forall site: Site, script: seq<Beat> | Alike(w.zone, mem, site.mem) && Alike(w.zone, disk, site.disk) && site.env == e
      ensures EndsWell(cfg, w.zone, now, site, todo, script)
    {
      Settled(cfg, now, site, todo, script);
      SettleLeaves(cfg, now, site, script, w.zone);
      var (s, rest) := Settle(cfg, now, site, script);
      if rest == [] {
        AlikeInv(cfg, w.zone, now, mem, disk, e, s);
      } else {
        CallMet(cfg, now, Site(mem, disk, e, []), s, todo, rest[0].outcome);
        var step := Meet(cfg, now, s, todo, rest[0].outcome);
        assert EndsWell(cfg, w.zone, now, step.0, step.1, rest[1..]);
      }
    }
  }

  lemma SafeSet(cfg: Config, now: Time, mem: State, disk: State, e: Env, w: Workflow, key: int, on: bool, ok: Todo)
    requires Handling(cfg, now, mem, disk, e, w)
    requires forall o :: SetCall(e, now, key, on, o).Some? ==>
               var e2 := SetCall(e, now, key, on, o).value;
               Handling(cfg, now, mem, disk, e2, w) && Safe(cfg, w.zone, now, mem, disk, e2, ok)
    ensures Safe(cfg, w.zone, now, mem, disk, e, Set(w, key, on, ok))
  {
    forall o
      ensures var step := Meet(cfg, now, Site(mem, disk, e, []), Set(w, key, on, ok), o);
              Safe(cfg, w.zone, now, mem, disk, step.0.env, step.1)
    {
      var call := SetCall(e, now, key, on, o);
      SafeFail(cfg, now, mem, disk, if call.Some? then call.value else e, w);
    }
    SafeCall(cfg, now, mem, disk, e, w, Set(w, key, on, ok));
  }

  lemma SafeDelete(cfg: Config, now: Time, mem: State, disk: State, e: Env, w: Workflow, key: int, ok: Todo)
    requires Handling(cfg, now, mem, disk, e, w)
    requires forall o :: DeleteCall(e, now, key, o).Some? ==>
               var e2 := DeleteCall(e, now, key, o).value;
               Handling(cfg, now, mem, disk, e2, w) && Safe(cfg, w.zone, now, mem, disk, e2, ok)
    ensures Safe(cfg, w.zone, now, mem, disk, e, Delete(w, key, ok))
  {
    forall o
      ensures var step := Meet(cfg, now, Site(mem, disk, e, []), Delete(w, key, ok), o);
              Safe(cfg, w.zone, now, mem, disk, step.0.env, step.1)
    {
      var call := DeleteCall(e, now, key, o);
      SafeFail(cfg, now, mem, disk, if call.Some? then call.value else e, w);
    }
    SafeCall(cfg, now, mem, disk, e, w, Delete(w, key, ok));
  }

  lemma SafeUpdate(cfg: Config, now: Time, mem: State, disk: State, e: Env, w: Workflow, key: int)
    requires Handling(cfg, now, mem, disk, e, w)
    requires Handling(cfg, now, mem, disk, e.(pending := {key}), w)
    requires forall reply :: Safe(cfg, w.zone, now, mem, disk, e.(pending := {key}), AfterUpdate(now, w, reply))
    ensures Safe(cfg, w.zone, now, mem, disk, e, Update(w, key))
  {
    forall o
      ensures var step := Meet(cfg, now, Site(mem, disk, e, []), Update(w, key), o);
              Safe(cfg, w.zone, now, mem, disk, step.0.env, step.1)
    {
      SafeFail(cfg, now, mem, disk, e, w);
    }
    SafeCall(cfg, now, mem, disk, e, w, Update(w, key));
  }

  lemma SafeCreate(cfg: Config, now: Time, mem: State, disk: State, e: Env, w: Workflow,
                   role: KeyType, algorithm: string, active: bool, zskSlot: bool)
    requires Handling(cfg, now, mem, disk, e, w)
    requires forall o :: CreateCall(e, now, role, active, o).Some? ==>
               var e2 := CreateCall(e, now, role, active, o).value;
               && Handling(cfg, now, mem, disk, e2, w)
               && forall reply :: Safe(cfg, w.zone, now, mem, disk, e2, AfterCreate(cfg, now, w, role, algorithm, active, zskSlot, reply))
    ensures Safe(cfg, w.zone, now, mem, disk, e, Create(w, role, algorithm, active, zskSlot))
  {
    var todo := Create(w, role, algorithm, active, zskSlot);
    forall o
      ensures var step := Meet(cfg, now, Site(mem, disk, e, []), todo, o);
              Safe(cfg, w.zone, now, mem, disk, step.0.env, step.1)
    {
      if CreateCall(e, now, role, active, o).None? {
        SafeFail(cfg, now, mem, disk, e, w);
      }
    }
    SafeCall(cfg, now, mem, disk, e, w, todo);
  }
}
