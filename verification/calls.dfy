/** The calls a reconciliation makes: each one marked on disk beforehand, none repeated
    within a workflow instance, every crash point included. */
module Calls {
  import opened Model
  import opened Inventory
  import opened Edits
  import opened Plans
  import opened World
  import opened Good
  import opened Legitimacy
  import opened Races
  import opened Logs

  // ---- counting ------------------------------------------------------------------------

  /** Create calls for one slot since the workflow instance of `id` began. */
  function Creates(trace: seq<Event>, id: WorkflowId, zskSlot: bool): nat {
    if trace == [] then 0
    else
      var last, before := trace[|trace| - 1], Creates(trace[..|trace| - 1], id, zskSlot);
      if last.w.Id() != id then before
      else if last.Finished? then 0
      else if last.Created? && last.zskSlot == zskSlot then before + 1
      else before
  }

  /** Registrar updates since the workflow instance of `id` began. */
  function Updates(trace: seq<Event>, id: WorkflowId): nat {
    if trace == [] then 0
    else
      var last, before := trace[|trace| - 1], Updates(trace[..|trace| - 1], id);
      if last.w.Id() != id then before
      else if last.Finished? then 0
      else if last.Updated? then before + 1
      else before
  }

  /** What each call needs of the record that is on disk when it is made. */
  predicate Rightful(cfg: Config, event: Event) {
    var w := event.w;
    && Sound(cfg, w)
    && match event
       case Created(_, zskSlot) => OpenSlot(w, zskSlot) && Marker(w, zskSlot) != UNSET
       case Switched(_, key, on) => MaySwitch(w, key, on) && RecordedIds(w)
       case Deleted(_, key) => w.phase.DeleteOld? && key == w.oldKey && RecordedIds(w)
       case Updated(_, key) =>
         && (w.phase.ParentRemove? || w.phase.EnrollParentAdd?) && key == w.newKey && key != 0
         && w.reg.attemptedAt != UNSET && !w.reg.ctid.NoCtid?
       case Finished(_) => MayFinish(w)
  }

  predicate AllRightful(cfg: Config, trace: seq<Event>) { forall event <- trace :: Rightful(cfg, event) }

  /** A call is only counted where its marker is set. */
  predicate Accounted(trace: seq<Event>, w: Workflow) {
    && Creates(trace, w.Id(), false) <= One(w.newKeyTriedAt != UNSET)
    && Creates(trace, w.Id(), true) <= One(w.newZskTriedAt != UNSET)
    && Updates(trace, w.Id()) <= One(w.reg.attemptedAt != UNSET)
  }

  ghost predicate Once(trace: seq<Event>, s: State) {
    forall id: WorkflowId :: Accounted(trace, Lookup(s, id))
  }

  /** Whoever asked the registrar for an enrollment is on record, and not as a zone that was
      DNSSEC-enabled when enrollment was armed. */
  predicate Recalls(s: State, event: Event) {
    event.Updated? && event.w.kind.Enroll? ==>
      event.w.Id() in s.workflows && !s.workflows[event.w.Id()].disposition.Baseline?
  }

  predicate Remembers(s: State, trace: seq<Event>) { forall event <- trace :: Recalls(s, event) }

  /** The file is as memory, or exactly one update ahead. */
  ghost predicate Ahead(cfg: Config, now: Time, mem: State, disk: State) { disk == mem || Steps(cfg, now, mem, disk) }

  ghost predicate Tidy(cfg: Config, now: Time, mem: State, disk: State, trace: seq<Event>) {
    && ValidConfig(cfg) && now > 0
    && Logged(cfg, now, mem) && Ahead(cfg, now, mem, disk)
    && Once(trace, mem) && AllRightful(cfg, trace) && Remembers(mem, trace)
  }

  ghost predicate SiteTidy(cfg: Config, now: Time, site: Site) { Tidy(cfg, now, site.mem, site.disk, site.trace) }

  /** All is tidy, and memory got here by legal updates. */
  ghost predicate Fine(cfg: Config, now: Time, site: Site, after: Site) {
    SiteTidy(cfg, now, after) && Leads(cfg, now, site.mem, after.mem)
  }

  lemma FineTrans(cfg: Config, now: Time, a: Site, b: Site, c: Site)
    requires Fine(cfg, now, a, b) && Fine(cfg, now, b, c)
    ensures Fine(cfg, now, a, c)
  {
    LeadsTrans(cfg, now, a.mem, b.mem, c.mem);
  }

  lemma FineSelf(cfg: Config, now: Time, site: Site)
    requires SiteTidy(cfg, now, site)
    ensures Fine(cfg, now, site, site)
  {
    LeadsSelf(cfg, now, site.mem);
  }

  // ---- one update -----------------------------------------------------------------------

  predicate KeepsMarks(w: Workflow, x: Workflow) {
    && (w.newKeyTriedAt != UNSET ==> x.newKeyTriedAt != UNSET)
    && (w.newZskTriedAt != UNSET ==> x.newZskTriedAt != UNSET)
    && (w.reg.attemptedAt != UNSET ==> x.reg.attemptedAt != UNSET)
  }

  /** Attempt markers survive every update but the completion of their own instance. */
  lemma EditMarks(cfg: Config, now: Time, e: Edit, s: State, t: State, id: WorkflowId)
    requires ValidConfig(cfg) && now > 0 && StateSound(cfg, s) && Legal(cfg, now, e, s)
    requires Apply(cfg, now, e, s) == Some(t)
    requires e.Complete? ==> id != e.w.Id()
    ensures KeepsMarks(Lookup(s, id), Lookup(t, id))
  {
    if Target(e).Some? {
      WritesOne(cfg, now, e, s, t);
      WrittenMarks(cfg, now, e, s);
    } else {
      BatchMarks(cfg, now, e, s, t, id);
    }
  }

  lemma BatchMarks(cfg: Config, now: Time, e: Edit, s: State, t: State, id: WorkflowId)
    requires Target(e).None? && Apply(cfg, now, e, s) == Some(t) && (e.Complete? ==> id != e.w.Id())
    ensures KeepsMarks(Lookup(s, id), Lookup(t, id))
  {
    match e
    case TriggerAll(kind, zones, idem, _) => StartedEach(s, kind, zones, idem, now, id);
    case ResumeAll(items, _, _) => ResumedEach(s, items, now, id);
    case Arm(listing, _) => BaselinedEach(s, listing, now, id);
    case Boot(zone, keys) => BootRecords(cfg, s, zone, keys, now, id);
    case _ =>
  }

  lemma WrittenMarks(cfg: Config, now: Time, e: Edit, s: State)
    requires now > 0 && Target(e).Some? && Legal(cfg, now, e, s)
    ensures KeepsMarks(Lookup(s, Target(e).value), Written(now, e, s))
  {}

  lemma FinishedCounts(trace: seq<Event>, w: Workflow, id: WorkflowId, zskSlot: bool)
    ensures var t := trace + [Finished(w)];
            && Creates(t, id, zskSlot) == (if id == w.Id() then 0 else Creates(trace, id, zskSlot))
            && Updates(t, id) == (if id == w.Id() then 0 else Updates(trace, id))
  {
    assert (trace + [Finished(w)])[..|trace|] == trace;
  }

  lemma EditOnce(cfg: Config, now: Time, e: Edit, s: State, t: State, trace: seq<Event>)
    requires ValidConfig(cfg) && now > 0 && StateSound(cfg, s) && StateSound(cfg, t)
    requires Legal(cfg, now, e, s) && Apply(cfg, now, e, s) == Some(t) && Once(trace, s)
    ensures if e.Complete? then Once(trace + [Finished(e.w)], t) else Once(trace, t)
  {
    var longer := if e.Complete? then trace + [Finished(e.w)] else trace;
    forall id: WorkflowId
      ensures Accounted(longer, Lookup(t, id))
    {
      assert Lookup(t, id).Id() == id && Lookup(s, id).Id() == id;
      if e.Complete? {
        FinishedCounts(trace, e.w, id, false);
        FinishedCounts(trace, e.w, id, true);
      }
      if !e.Complete? || id != e.w.Id() {
        EditMarks(cfg, now, e, s, t, id);
        assert Accounted(trace, Lookup(s, id));
      }
    }
  }

  lemma FinishedOnce(cfg: Config, trace: seq<Event>, s: State, w: Workflow)
    requires Once(trace, s) && StateSound(cfg, s)
    ensures Once(trace + [Finished(w)], s)
  {
    forall id: WorkflowId
      ensures Accounted(trace + [Finished(w)], Lookup(s, id))
    {
      assert Lookup(s, id).Id() == id && Accounted(trace, Lookup(s, id));
      FinishedCounts(trace, w, id, false);
      FinishedCounts(trace, w, id, true);
    }
  }

  lemma WrittenDisposition(cfg: Config, now: Time, e: Edit, s: State)
    requires StateSound(cfg, s) && Target(e).Some? && Target(e).value.kind.Enroll? && Legal(cfg, now, e, s)
    requires Apply(cfg, now, e, s).Some?
    ensures Written(now, e, s).disposition.Baseline? == Lookup(s, Target(e).value).disposition.Baseline?
  {
    var x := Lookup(s, Target(e).value);
    assert x.Id() == Target(e).value && Sound(cfg, x);
    if e.Put? {
      assert RecordOf(RecordsOf(s, x.zone), x.kind) == x;
    }
  }

  lemma BatchDisposition(cfg: Config, now: Time, e: Edit, s: State, t: State, id: WorkflowId)
    requires StateSound(cfg, s) && Target(e).None? && Legal(cfg, now, e, s) && Apply(cfg, now, e, s) == Some(t)
    requires id.kind.Enroll? && id in s.workflows
    ensures id in t.workflows && t.workflows[id].disposition.Baseline? == s.workflows[id].disposition.Baseline?
  {
    assert Lookup(s, id).Id() == id && Sound(cfg, Lookup(s, id));
    match e
    case TriggerAll(kind, zones, idem, _) => StartedEach(s, kind, zones, idem, now, id);
    case ResumeAll(items, _, _) => ResumedEach(s, items, now, id);
    case Arm(listing, _) => BaselinedEach(s, listing, now, id);
    case Boot(zone, keys) => BootRecords(cfg, s, zone, keys, now, id);
    case Complete(w) =>
      CompletedLookup(cfg, now, w, s, id);
      assert RecordOf(RecordsOf(s, w.zone), w.kind) == w;
    case _ =>
  }

  /** Enroll records stay, and stay what they are: only arming makes a zone a baseline. */
  lemma EditDisposition(cfg: Config, now: Time, e: Edit, s: State, t: State, id: WorkflowId)
    requires StateSound(cfg, s) && Legal(cfg, now, e, s) && Apply(cfg, now, e, s) == Some(t)
    requires id.kind.Enroll? && id in s.workflows
    ensures id in t.workflows && t.workflows[id].disposition.Baseline? == s.workflows[id].disposition.Baseline?
  {
    if Target(e).Some? {
      WritesOne(cfg, now, e, s, t);
      if Target(e).value == id {
        WrittenDisposition(cfg, now, e, s);
      }
    } else {
      BatchDisposition(cfg, now, e, s, t, id);
    }
  }

  lemma EditRemembers(cfg: Config, now: Time, e: Edit, s: State, t: State, trace: seq<Event>)
    requires StateSound(cfg, s) && Legal(cfg, now, e, s) && Apply(cfg, now, e, s) == Some(t) && Remembers(s, trace)
    ensures Remembers(t, trace)
  {
    forall event | event in trace
      ensures Recalls(t, event)
    {
      assert Recalls(s, event);
      if event.Updated? && event.w.kind.Enroll? {
        EditDisposition(cfg, now, e, s, t, event.w.Id());
      }
    }
  }

  // ---- reloading -----------------------------------------------------------------------

  lemma WrittenStays(cfg: Config, now: Time, e: Edit, s: State)
    requires StateSound(cfg, s) && Target(e).Some? && Legal(cfg, now, e, s)
    ensures var x, y := Lookup(s, Target(e).value), Written(now, e, s);
            x.Active() && !y.Active() ==> y.disposition.Ineligible?
  {
    assert Lookup(s, Target(e).value).Id() == Target(e).value;
  }

  /** Only a completion moves a workflow from active to completed. */
  lemma OneOutdone(cfg: Config, now: Time, e: Edit, s: State, t: State, id: WorkflowId)
    requires StateSound(cfg, s) && Legal(cfg, now, e, s) && Apply(cfg, now, e, s) == Some(t)
    ensures Outdone(s, t, id) ==> e.Complete? && id == e.w.Id()
  {
    if Target(e).Some? {
      WritesOne(cfg, now, e, s, t);
      WrittenStays(cfg, now, e, s);
    } else {
      match e
      case TriggerAll(kind, zones, idem, _) => StartedEach(s, kind, zones, idem, now, id);
      case ResumeAll(items, _, _) => ResumedEach(s, items, now, id);
      case Arm(listing, _) => BaselinedEach(s, listing, now, id);
      case Boot(zone, keys) => BootRecords(cfg, s, zone, keys, now, id);
      case Complete(w) =>
        CompletedLookup(cfg, now, w, s, id);
        if w.kind.Enroll? && id.zone == w.zone && id != w.Id() {
          assert RecordOf(RecordsOf(s, w.zone), id.kind) == Lookup(s, id);
        }
      case _ =>
    }
  }

  /** So a reload ends exactly the instance whose completion the file holds. */
  lemma EndedIs(cfg: Config, now: Time, e: Edit, s: State, t: State)
    requires StateSound(cfg, s) && Legal(cfg, now, e, s) && Apply(cfg, now, e, s) == Some(t)
    ensures Ended(s, t) == (if e.Complete? then [Finished(e.w)] else [])
  {
    forall id | Outdone(s, t, id)
      ensures e.Complete? && id == e.w.Id()
    {
      OneOutdone(cfg, now, e, s, t, id);
    }
    if e.Complete? {
      CompletedLookup(cfg, now, e.w, s, e.w.Id());
      assert RecordOf(RecordsOf(s, e.w.zone), e.w.kind) == e.w;
      assert Outdone(s, t, e.w.Id());
    }
  }

  /** The books after an update that took effect in memory. */
  lemma EditBooks(cfg: Config, now: Time, e: Edit, s: State, t: State, trace: seq<Event>)
    requires ValidConfig(cfg) && now > 0 && StateSound(cfg, s) && StateSound(cfg, t)
    requires Legal(cfg, now, e, s) && Apply(cfg, now, e, s) == Some(t)
    requires Once(trace, s) && AllRightful(cfg, trace) && Remembers(s, trace)
    ensures var longer := trace + Ends(e, Saved); Once(longer, t) && AllRightful(cfg, longer) && Remembers(t, longer)
  {
    EditOnce(cfg, now, e, s, t, trace);
    EditRemembers(cfg, now, e, s, t, trace);
    if e.Complete? {
      assert Sound(cfg, Lookup(s, e.w.Id()));
    } else {
      assert trace + Ends(e, Saved) == trace;
    }
  }

  /** Reloading the file keeps everything tidy. */
  lemma ReloadTidy(cfg: Config, now: Time, mem: State, disk: State, trace: seq<Event>)
    requires Tidy(cfg, now, mem, disk, trace)
    ensures Tidy(cfg, now, disk, disk, trace + Ended(mem, disk)) && Leads(cfg, now, mem, disk)
  {
    if disk == mem {
      assert trace + Ended(mem, disk) == trace;
      LeadsSelf(cfg, now, mem);
    } else {
      LeadsStep(cfg, now, mem, disk);
      StepsLogged(cfg, now, mem, disk);
      LoggedSound(cfg, now, mem);
      LoggedSound(cfg, now, disk);
      var e, at: Time :| 0 < at <= now && Logged(cfg, at, mem) && Legal(cfg, at, e, mem) && Apply(cfg, at, e, mem) == Some(disk);
      EditBooks(cfg, at, e, mem, disk, trace);
      EndedIs(cfg, at, e, mem, disk);
    }
  }

  lemma CrashFine(cfg: Config, now: Time, site: Site)
    requires SiteTidy(cfg, now, site)
    ensures Fine(cfg, now, site, Crash(site))
  {
    ReloadTidy(cfg, now, site.mem, site.disk, site.trace);
  }

  // ---- updates that get only so far ------------------------------------------------------

  lemma SavedTidy(cfg: Config, now: Time, mem: State, disk: State, trace: seq<Event>, edit: Edit, t: State)
    requires Tidy(cfg, now, mem, disk, trace) && Legal(cfg, now, edit, mem) && Apply(cfg, now, edit, mem) == Some(t)
    ensures Tidy(cfg, now, t, t, trace + Ends(edit, Saved))
  {
    LogEdit(cfg, now, edit, mem, t);
    LoggedSound(cfg, now, mem);
    LoggedSound(cfg, now, t);
    EditBooks(cfg, now, edit, mem, t, trace);
  }

  /** A legal update, however far it gets, leaves everything tidy. */
  lemma CommitTidy(cfg: Config, now: Time, mem: State, disk: State, trace: seq<Event>, edit: Edit, io: Io, t: State)
    requires Tidy(cfg, now, mem, disk, trace) && Legal(cfg, now, edit, mem) && Apply(cfg, now, edit, mem) == Some(t)
    ensures var mem2 := if io.Saved? then t else mem;
            Tidy(cfg, now, mem2, if io.NotSaved? then disk else t, trace + Ends(edit, io)) && Leads(cfg, now, mem, mem2)
  {
    LeadsSelf(cfg, now, mem);
    assert Steps(cfg, now, mem, t);
    LeadsStep(cfg, now, mem, t);
    if io.Saved? {
      SavedTidy(cfg, now, mem, disk, trace, edit, t);
    } else {
      assert trace + Ends(edit, io) == trace;
    }
  }

  lemma CommitFine(cfg: Config, now: Time, site: Site, edit: Edit, io: Io, t: State)
    requires SiteTidy(cfg, now, site) && Legal(cfg, now, edit, site.mem) && Apply(cfg, now, edit, site.mem) == Some(t)
    ensures Fine(cfg, now, site, Commit(site, io, t).(trace := site.trace + Ends(edit, io)))
  {
    CommitTidy(cfg, now, site.mem, site.disk, site.trace, edit, io, t);
  }

  lemma {:induction false} SettleFine(cfg: Config, now: Time, site: Site, script: seq<Beat>)
    requires SiteTidy(cfg, now, site)
    ensures Fine(cfg, now, site, Settle(cfg, now, site, script).0)
    decreases |script|
  {
    if script != [] && script[0].Slips? {
      var req := script[0].req;
      var after := Slipped(cfg, now, site, req);
      var next := Apply(cfg, now, TriggerEdit(req), site.mem);
      if req.kind.Enroll? || next.None? {
        FineSelf(cfg, now, site);
      } else {
        CommitFine(cfg, now, site, TriggerEdit(req), req.io, next.value);
        assert after == after.(trace := site.trace + Ends(TriggerEdit(req), req.io));
      }
      SettleFine(cfg, now, after, script[1..]);
      FineTrans(cfg, now, site, after, Settle(cfg, now, site, script).0);
    } else {
      FineSelf(cfg, now, site);
    }
  }

  // ---- one reconciliation ------------------------------------------------------------------

  ghost predicate Worked(cfg: Config, now: Time, site: Site, w: Workflow) {
    SiteTidy(cfg, now, site) && Works(now, site.mem, w) && Lookup(site.disk, w.Id()) == w
  }

  lemma OnlyIsActive(s: State, w: Workflow)
    requires OnlyActive(RecordsOf(s, w.zone), w.kind) && Lookup(s, w.Id()) == w
    ensures w.Active() && AnyActive(s, w.zone)
  {
    assert RecordOf(RecordsOf(s, w.zone), w.kind) == w;
  }

  lemma AlikeLookup(a: State, b: State, id: WorkflowId)
    requires Alike(id.zone, a, b)
    ensures Lookup(a, id) == Lookup(b, id)
  {
    match id.kind case ZSK => case KSK => case Split => case Enroll =>
  }

  lemma ActiveThere(s: State, id: WorkflowId)
    requires Lookup(s, id).Active()
    ensures AnyActive(s, id.zone)
  {
    match id.kind case ZSK => case KSK => case Split => case Enroll =>
  }

  /** Triggers that slip in leave the handler's record alone. */
  lemma SettleWorked(cfg: Config, now: Time, site: Site, w: Workflow, script: seq<Beat>)
    requires Worked(cfg, now, site, w)
    ensures Worked(cfg, now, Settle(cfg, now, site, script).0, w)
    ensures Fine(cfg, now, site, Settle(cfg, now, site, script).0)
  {
    OnlyIsActive(site.mem, w);
    SettleFine(cfg, now, site, script);
    SettleLeaves(cfg, now, site, script, w.zone);
    var s := Settle(cfg, now, site, script).0;
    AlikeLookup(site.mem, s.mem, w.Id());
    if s.disk != site.disk {
      AlikeLookup(site.mem, s.disk, w.Id());
    }
  }

  /** What a reconciliation does is fine if what it does after the Triggers is. */
  lemma Onwards(cfg: Config, now: Time, site: Site, todo: Todo, script: seq<Beat>)
    requires !todo.Rest? && SiteTidy(cfg, now, site)
    requires var (s, rest) := Settle(cfg, now, site, script);
             rest != [] ==> var step := Meet(cfg, now, s, todo, rest[0].outcome);
                            Fine(cfg, now, s, Perform(cfg, now, step.0, step.1, rest[1..]))
    ensures Fine(cfg, now, site, Perform(cfg, now, site, todo, script))
  {
    Settled(cfg, now, site, todo, script);
    SettleFine(cfg, now, site, script);
    var (s, rest) := Settle(cfg, now, site, script);
    if rest == [] {
      CrashFine(cfg, now, s);
    }
    FineTrans(cfg, now, site, s, Perform(cfg, now, site, todo, script));
  }

  /** The update of a plan met: tidy up to there. */
  lemma SaveFine(cfg: Config, now: Time, site: Site, edit: Edit, ok: Todo, fail: Todo, o: Outcome)
    requires SiteTidy(cfg, now, site) && Legal(cfg, now, edit, site.mem)
    ensures Fine(cfg, now, site, Meet(cfg, now, site, Persist(edit, ok, fail), o).0)
  {
    var next := Apply(cfg, now, edit, site.mem);
    if next.None? {
      FineSelf(cfg, now, site);
    } else {
      CommitFine(cfg, now, site, edit, o.io, next.value);
    }
  }

  /** An update with nothing to do after it. */
  lemma AloneFine(cfg: Config, now: Time, site: Site, edit: Edit, script: seq<Beat>)
    requires SiteTidy(cfg, now, site) && Legal(cfg, now, edit, Settle(cfg, now, site, script).0.mem)
    ensures Fine(cfg, now, site, Perform(cfg, now, site, Persist(edit, Rest, Rest), script))
  {
    SettleFine(cfg, now, site, script);
    var (s, rest) := Settle(cfg, now, site, script);
    if rest != [] {
      SaveFine(cfg, now, s, edit, Rest, Rest, rest[0].outcome);
    }
    Onwards(cfg, now, site, Persist(edit, Rest, Rest), script);
  }

  lemma FailFine(cfg: Config, now: Time, site: Site, w: Workflow, script: seq<Beat>)
    requires SiteTidy(cfg, now, site)
    requires var cur := Lookup(site.mem, w.Id()); cur.Active() && (Due(cur, now) || cur.phase.Blocked?)
    ensures Fine(cfg, now, site, Perform(cfg, now, site, Fail(w), script))
  {
    ActiveThere(site.mem, w.Id());
    SettleLeaves(cfg, now, site, script, w.zone);
    AlikeLookup(site.mem, Settle(cfg, now, site, script).0.mem, w.Id());
    AloneFine(cfg, now, site, Retry(w.Id()), script);
  }

  lemma StopFine(cfg: Config, now: Time, site: Site, w: Workflow, script: seq<Beat>)
    requires Worked(cfg, now, site, w)
    ensures Fine(cfg, now, site, Perform(cfg, now, site, Stop(w), script))
  {
    SettleWorked(cfg, now, site, w, script);
    var (s, rest) := Settle(cfg, now, site, script);
    OnlyIsActive(s.mem, w);
    if rest != [] {
      var step := Meet(cfg, now, s, Stop(w), rest[0].outcome);
      SaveFine(cfg, now, s, Block(w.Id()), Fail(w), Fail(w), rest[0].outcome);
      BlockedThere(cfg, now, s, w, rest[0].outcome);
      FailFine(cfg, now, step.0, w, rest[1..]);
      FineTrans(cfg, now, s, step.0, Perform(cfg, now, step.0, step.1, rest[1..]));
    }
    Onwards(cfg, now, site, Stop(w), script);
  }

  lemma BlockedThere(cfg: Config, now: Time, site: Site, w: Workflow, o: Outcome)
    requires Lookup(site.mem, w.Id()) == w && w.Active() && Due(w, now)
    ensures var cur := Lookup(Meet(cfg, now, site, Stop(w), o).0.mem, w.Id());
            cur.Active() && (Due(cur, now) || cur.phase.Blocked?)
    ensures Meet(cfg, now, site, Stop(w), o).1 == Fail(w)
  {
    WritesOne(cfg, now, Block(w.Id()), site.mem, BlockState(cfg, site.mem, w.Id(), now));
  }

  /** A legal update that ends the reconciliation when it is saved. */
  lemma EndFine(cfg: Config, now: Time, site: Site, w: Workflow, edit: Edit, script: seq<Beat>)
    requires Worked(cfg, now, site, w)
    requires forall s | Works(now, s, w) :: Legal(cfg, now, edit, s) && Apply(cfg, now, edit, s).Some?
    ensures Fine(cfg, now, site, Perform(cfg, now, site, Persist(edit, Rest, Fail(w)), script))
  {
    SettleWorked(cfg, now, site, w, script);
    var (s, rest) := Settle(cfg, now, site, script);
    OnlyIsActive(s.mem, w);
    if rest != [] {
      var step := Meet(cfg, now, s, Persist(edit, Rest, Fail(w)), rest[0].outcome);
      SaveFine(cfg, now, s, edit, Rest, Fail(w), rest[0].outcome);
      if step.1 != Rest {
        FailFine(cfg, now, step.0, w, rest[1..]);
        FineTrans(cfg, now, s, step.0, Perform(cfg, now, step.0, step.1, rest[1..]));
      }
    }
    Onwards(cfg, now, site, Persist(edit, Rest, Fail(w)), script);
  }

  lemma MoveFine(cfg: Config, now: Time, site: Site, w: Workflow, todo: Todo, script: seq<Beat>)
    requires Worked(cfg, now, site, w) && (Moves(cfg, now, w, todo) || (todo == Finish(w) && MayFinish(w)))
    ensures Fine(cfg, now, site, Perform(cfg, now, site, todo, script))
  {
    EndFine(cfg, now, site, w, todo.edit, script);
  }

  /** A rightful call that the accounts have room for. */
  lemma CallTidy(cfg: Config, now: Time, site: Site, w: Workflow, event: Event)
    requires Worked(cfg, now, site, w) && Rightful(cfg, event) && event.w == w && !event.Finished?
    requires event.Created? ==> Creates(site.trace, w.Id(), event.zskSlot) == 0
    requires event.Updated? ==> Updates(site.trace, w.Id()) == 0
    ensures SiteTidy(cfg, now, site.(trace := site.trace + [event]))
  {
    var longer := site.trace + [event];
    assert longer[..|site.trace|] == site.trace;
    LoggedSound(cfg, now, site.mem);
    OnlyIsActive(site.mem, w);
    assert Sound(cfg, w);
    forall id: WorkflowId
      ensures Accounted(longer, Lookup(site.mem, id))
    {
      assert Accounted(site.trace, Lookup(site.mem, id)) && Lookup(site.mem, id).Id() == id;
    }
    assert w.Id() in site.mem.workflows;
  }

  /** The event a call leaves in the trace. */
  function EventOf(todo: Todo): Event
    requires !todo.Rest? && !todo.Persist?
  {
    match todo
    case Create(w, _, _, _, zskSlot) => Created(w, zskSlot)
    case Set(w, key, on, _) => Switched(w, key, on)
    case Delete(w, key, _) => Deleted(w, key)
    case Update(w, key) => Updated(w, key)
  }

  ghost predicate MayCall(cfg: Config, now: Time, site: Site, w: Workflow, todo: Todo) {
    && Worked(cfg, now, site, w) && !todo.Rest? && !todo.Persist? && todo.w == w && Rightful(cfg, EventOf(todo))
    && (todo.Create? ==> Creates(site.trace, w.Id(), todo.zskSlot) == 0)
    && (todo.Update? ==> Updates(site.trace, w.Id()) == 0)
  }

  lemma SettleMayCall(cfg: Config, now: Time, site: Site, w: Workflow, todo: Todo, script: seq<Beat>)
    requires MayCall(cfg, now, site, w, todo)
    ensures MayCall(cfg, now, Settle(cfg, now, site, script).0, w, todo)
  {
    SettleWorked(cfg, now, site, w, script);
    SettleEnv(cfg, now, site, script);
  }

  lemma CallMetFine(cfg: Config, now: Time, site: Site, w: Workflow, todo: Todo, o: Outcome)
    requires MayCall(cfg, now, site, w, todo)
    ensures var step := Meet(cfg, now, site, todo, o); Fine(cfg, now, site, step.0) && Worked(cfg, now, step.0, w)
    ensures Meet(cfg, now, site, todo, o).0.trace == site.trace + [EventOf(todo)]
  {
    CallTidy(cfg, now, site, w, EventOf(todo));
    LeadsSelf(cfg, now, site.mem);
  }

  lemma SetFine(cfg: Config, now: Time, site: Site, w: Workflow, todo: Todo, script: seq<Beat>)
    requires Worked(cfg, now, site, w)
    requires || (todo.Set? && todo.w == w && MaySwitch(w, todo.key, todo.on) && Moves(cfg, now, w, todo.ok))
             || (todo == Delete(w, w.oldKey, Finish(w)) && w.phase.DeleteOld?)
    ensures Fine(cfg, now, site, Perform(cfg, now, site, todo, script))
  {
    OnlyIsActive(site.mem, w);
    LoggedSound(cfg, now, site.mem);
    assert Sound(cfg, Lookup(site.mem, w.Id()));
    SettleMayCall(cfg, now, site, w, todo, script);
    var (s, rest) := Settle(cfg, now, site, script);
    if rest != [] {
      var step := Meet(cfg, now, s, todo, rest[0].outcome);
      CallMetFine(cfg, now, s, w, todo, rest[0].outcome);
      MoveFine(cfg, now, step.0, w, todo.ok, rest[1..]);
      FailFine(cfg, now, step.0, w, rest[1..]);
      FineTrans(cfg, now, s, step.0, Perform(cfg, now, step.0, step.1, rest[1..]));
    }
    Onwards(cfg, now, site, todo, script);
  }

  // ---- counted calls -------------------------------------------------------------------------

  lemma AfterCreateFine(cfg: Config, now: Time, site: Site, todo: Todo, reply: Option<Key>, script: seq<Beat>)
    requires todo.Create? && Worked(cfg, now, site, todo.w) && OpenSlot(todo.w, todo.zskSlot)
    ensures Fine(cfg, now, site,
                 Perform(cfg, now, site, AfterCreate(cfg, now, todo.w, todo.role, todo.algorithm, todo.active, todo.zskSlot, reply), script))
  {
    var w := todo.w;
    LoggedSound(cfg, now, site.mem);
    OnlyIsActive(site.mem, w);
    assert Sound(cfg, Lookup(site.mem, w.Id()));
    if reply.Some? && GoodReply(cfg, w, reply.value, todo.role, todo.algorithm, todo.active, todo.zskSlot) {
      FilledLegit(cfg, now, w, todo.zskSlot, reply.value.id);
      MoveFine(cfg, now, site, w, Go(w, Filled(w, now, todo.zskSlot, reply.value.id)), script);
    } else {
      FailFine(cfg, now, site, w, script);
    }
  }

  lemma CreateFine(cfg: Config, now: Time, site: Site, todo: Todo, script: seq<Beat>)
    requires todo.Create? && Worked(cfg, now, site, todo.w) && OpenSlot(todo.w, todo.zskSlot)
    requires Marker(todo.w, todo.zskSlot) != UNSET
    requires Creates(site.trace, todo.w.Id(), todo.zskSlot) == 0
    ensures Fine(cfg, now, site, Perform(cfg, now, site, todo, script))
  {
    var w := todo.w;
    LoggedSound(cfg, now, site.mem);
    assert Sound(cfg, Lookup(site.mem, w.Id()));
    SettleMayCall(cfg, now, site, w, todo, script);
    var (s, rest) := Settle(cfg, now, site, script);
    if rest != [] {
      var o := rest[0].outcome;
      var step := Meet(cfg, now, s, todo, o);
      CallMetFine(cfg, now, s, w, todo, o);
      AfterCreateFine(cfg, now, step.0, todo, if o.seen && CreateCall(s.env, now, todo.role, todo.active, o).Some? then Some(o.key) else None, rest[1..]);
      FineTrans(cfg, now, s, step.0, Perform(cfg, now, step.0, step.1, rest[1..]));
    }
    Onwards(cfg, now, site, todo, script);
  }

  lemma AfterUpdateFine(cfg: Config, now: Time, site: Site, w: Workflow, reply: Option<Job>, script: seq<Beat>)
    requires Worked(cfg, now, site, w) && (w.phase.ParentRemove? || w.phase.EnrollParentAdd?) && !w.reg.ctid.NoCtid?
    ensures Fine(cfg, now, site, Perform(cfg, now, site, AfterUpdate(now, w, reply), script))
  {
    LoggedSound(cfg, now, site.mem);
    assert Sound(cfg, Lookup(site.mem, w.Id()));
    OnlyIsActive(site.mem, w);
    AfterUpdateLegit(cfg, now, w, reply);
    var next := AfterUpdate(now, w, reply);
    if next == Fail(w) {
      FailFine(cfg, now, site, w, script);
    } else if next == Stop(w) {
      StopFine(cfg, now, site, w, script);
    } else {
      MoveFine(cfg, now, site, w, next, script);
    }
  }

  lemma UpdateFine(cfg: Config, now: Time, site: Site, w: Workflow, script: seq<Beat>)
    requires Worked(cfg, now, site, w) && (w.phase.ParentRemove? || w.phase.EnrollParentAdd?) && !w.reg.ctid.NoCtid?
    requires w.reg.attemptedAt != UNSET && Updates(site.trace, w.Id()) == 0
    ensures Fine(cfg, now, site, Perform(cfg, now, site, Update(w, w.newKey), script))
  {
    LoggedSound(cfg, now, site.mem);
    OnlyIsActive(site.mem, w);
    assert Sound(cfg, Lookup(site.mem, w.Id()));
    var todo := Update(w, w.newKey);
    SettleMayCall(cfg, now, site, w, todo, script);
    var (s, rest) := Settle(cfg, now, site, script);
    if rest != [] {
      var o := rest[0].outcome;
      var step := Meet(cfg, now, s, todo, o);
      CallMetFine(cfg, now, s, w, todo, o);
      AfterUpdateFine(cfg, now, step.0, w, if o.seen && UpdateCall(s.env, w.newKey, o).Some? then Some(o.job) else None, rest[1..]);
      FineTrans(cfg, now, s, step.0, Perform(cfg, now, step.0, step.1, rest[1..]));
    }
    Onwards(cfg, now, site, todo, script);
  }

  predicate MarksFirst(w: Workflow, now: Time, todo: Todo) {
    || AsksCreate(w, now, todo)
    || (todo == Persist(MarkReplace(w), Update(Requested(w, now), w.newKey), Fail(w))
        && w.phase.ParentRemove? && !w.reg.ctid.NoCtid? && w.reg.attemptedAt == UNSET)
    || (todo == Persist(MarkEnroll(w), Update(Requested(w, now), w.newKey), Fail(w))
        && w.phase.EnrollParentAdd? && !w.reg.ctid.NoCtid? && w.reg.attemptedAt == UNSET)
  }

  function WithMark(w: Workflow, now: Time, todo: Todo): Workflow
    requires MarksFirst(w, now, todo)
  {
    if todo.ok.Create? then Marked(w, todo.ok.zskSlot, now) else Requested(w, now)
  }

  lemma MarkStep(cfg: Config, now: Time, s: State, w: Workflow, todo: Todo)
    requires Works(now, s, w) && w.Active() && MarksFirst(w, now, todo)
    ensures Apply(cfg, now, todo.edit, s) == Some(WithRecord(s, WithMark(w, now, todo)))
    ensures Legal(cfg, now, todo.edit, s) && Scoped(todo.edit, w.zone) && !todo.edit.Complete?
    ensures Works(now, WithRecord(s, WithMark(w, now, todo)), WithMark(w, now, todo))
  {
    MarkedWorks(now, s, w, WithMark(w, now, todo));
  }

  lemma MarkedWorks(now: Time, s: State, w: Workflow, x: Workflow)
    requires Works(now, s, w) && x.Id() == w.Id() && x.Active() && x.nextAt == w.nextAt
    ensures Works(now, WithRecord(s, x), x)
  {
    var r, q := RecordsOf(s, w.zone), RecordsOf(WithRecord(s, x), w.zone);
    assert RecordOf(q, w.kind) == x;
    forall other: Kind | other != w.kind
      ensures RecordOf(q, other) == RecordOf(r, other)
    {}
  }

  /** With the marker on disk and no call counted yet, the call may be made. */
  lemma CalledFine(cfg: Config, now: Time, site: Site, w: Workflow, todo: Todo, script: seq<Beat>)
    requires now > 0 && MarksFirst(w, now, todo) && Accounted(site.trace, w)
    requires Worked(cfg, now, site, WithMark(w, now, todo))
    ensures Fine(cfg, now, site, Perform(cfg, now, site, todo.ok, script))
  {
    if todo.ok.Create? {
      CreateFine(cfg, now, site, todo.ok, script);
    } else {
      UpdateFine(cfg, now, site, WithMark(w, now, todo), script);
    }
  }

  /** The marker reaches the disk before the call it announces can be made. */
  lemma MarkedCallFine(cfg: Config, now: Time, site: Site, w: Workflow, todo: Todo, script: seq<Beat>)
    requires Worked(cfg, now, site, w) && MarksFirst(w, now, todo)
    ensures Fine(cfg, now, site, Perform(cfg, now, site, todo, script))
  {
    SettleWorked(cfg, now, site, w, script);
    var (s, rest) := Settle(cfg, now, site, script);
    OnlyIsActive(s.mem, w);
    assert Accounted(s.trace, Lookup(s.mem, w.Id()));
    if rest != [] {
      var step := Meet(cfg, now, s, todo, rest[0].outcome);
      MarkStep(cfg, now, s.mem, w, todo);
      SaveFine(cfg, now, s, todo.edit, todo.ok, todo.fail, rest[0].outcome);
      assert step.0.trace == s.trace;
      if rest[0].outcome.io.Saved? {
        CalledFine(cfg, now, step.0, w, todo, rest[1..]);
      } else {
        FailFine(cfg, now, step.0, w, rest[1..]);
      }
      FineTrans(cfg, now, s, step.0, Perform(cfg, now, step.0, step.1, rest[1..]));
    }
    Onwards(cfg, now, site, todo, script);
  }

  /** Every legitimate plan, cut off anywhere, with Triggers slipping in anywhere. */
  lemma LegitFine(cfg: Config, now: Time, site: Site, w: Workflow, todo: Todo, script: seq<Beat>)
    requires Worked(cfg, now, site, w) && Legit(cfg, now, w, todo)
    ensures Fine(cfg, now, site, Perform(cfg, now, site, todo, script))
  {
    OnlyIsActive(site.mem, w);
    if todo == Rest {
      FineSelf(cfg, now, site);
    } else if todo == Fail(w) {
      FailFine(cfg, now, site, w, script);
    } else if todo == Stop(w) {
      StopFine(cfg, now, site, w, script);
    } else if Moves(cfg, now, w, todo) || (todo == Finish(w) && MayFinish(w)) {
      MoveFine(cfg, now, site, w, todo, script);
    } else if todo.Set? || todo.Delete? {
      SetFine(cfg, now, site, w, todo, script);
    } else {
      MarkedCallFine(cfg, now, site, w, todo, script);
    }
  }
}
