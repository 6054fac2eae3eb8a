/** Persisted state as a log: every state the controller holds, in memory or on disk, comes
    from the empty one by updates each of which its code has checked. Invariants of the
    records are proved over such logs, once for all handlers, control calls and crashes. */
module Logs {
  import opened Model
  import opened Inventory
  import opened Edits
  import opened Plans
  import opened Good
  import opened Legitimacy
  import opened Races

  datatype Entry = Entry(now: Time, edit: Edit)

  /** A handler at work on the one active workflow of its zone, which is due. */
  ghost predicate Works(now: Time, s: State, w: Workflow) {
    Lookup(s, w.Id()) == w && OnlyActive(RecordsOf(s, w.zone), w.kind) && Due(w, now)
  }

  predicate Resumable(s: State, w: Workflow) {
    && w == Lookup(s, w.Id()) && w.kind.Split? && w.phase.Blocked? && DistinctSplitIds(w)
    && w.reg.ctid.NoCtid? && w.reg.attemptedAt == UNSET
  }

  /** What the code has established when it applies e to s. */
  ghost predicate Legal(cfg: Config, now: Time, e: Edit, s: State) {
    match e
    case Boot(_, keys) => PositiveIds(keys)
    case Begin(_, kind) => kind.ZSK? || kind.KSK?
    case Put(x) => var w := Lookup(s, x.Id()); Works(now, s, w) && Successor(cfg, now, w, x)
    case MarkCreate(w, zskSlot) => Works(now, s, w) && OpenSlot(w, zskSlot)
    case MarkReplace(w) => Works(now, s, w) && w.phase.ParentRemove? && w.reg.attemptedAt == UNSET
    case MarkEnroll(w) => Works(now, s, w)
    case Retry(id) => Lookup(s, id).Active() && (Due(Lookup(s, id), now) || Lookup(s, id).phase.Blocked?)
    case Block(id) => Lookup(s, id).Active() || (id.kind.ZSK? && !AnyActive(s, id.zone))
    case Complete(w) => Works(now, s, w) && MayFinish(w)
    case TriggerAll(kind, _, _, _) => !kind.Enroll?
    case ResumeAll(items, _, _) => forall w <- items :: Resumable(s, w)
    case Attest(w, ttl, _, _) =>
      Lookup(s, w.Id()) == w && w.kind.Split? && !w.reg.ctid.NoCtid? && Max(w.zoneTtl, DAY) <= ttl < TTL_LIMIT
    case Arm(_, _) => true
    case Expire(ids) => AllExpired(cfg, s, ids, now)
    case Deliver(_, _) => true
  }

  function Result(cfg: Config, log: seq<Entry>): State {
    if log == [] then EMPTY_STATE
    else
      var before, last := Result(cfg, log[..|log| - 1]), log[|log| - 1];
      var after := Apply(cfg, last.now, last.edit, before);
      if after.Some? then after.value else before
  }

  ghost predicate LegalLog(cfg: Config, log: seq<Entry>, now: Time) {
    log == [] ||
    var last := log[|log| - 1];
    && 0 < last.now <= now
    && Legal(cfg, last.now, last.edit, Result(cfg, log[..|log| - 1]))
    && LegalLog(cfg, log[..|log| - 1], last.now)
  }

  ghost predicate Logged(cfg: Config, now: Time, s: State) {
    exists log :: LegalLog(cfg, log, now) && Result(cfg, log) == s
  }

  lemma LogEdit(cfg: Config, now: Time, e: Edit, s: State, t: State)
    requires now > 0 && Logged(cfg, now, s) && Legal(cfg, now, e, s) && Apply(cfg, now, e, s) == Some(t)
    ensures Logged(cfg, now, t)
  {
    var log :| LegalLog(cfg, log, now) && Result(cfg, log) == s;
    var longer := log + [Entry(now, e)];
    assert longer[..|longer| - 1] == log;
    assert LegalLog(cfg, longer, now) && Result(cfg, longer) == t;
  }

  lemma LogLater(cfg: Config, now: Time, later: Time, s: State)
    requires Logged(cfg, now, s) && now <= later
    ensures Logged(cfg, later, s)
  {
    var log :| LegalLog(cfg, log, now) && Result(cfg, log) == s;
    assert LegalLog(cfg, log, later);
  }

  // ---- from one state to a later one -------------------------------------------------------

  /** One legal update leads from s to t. */
  ghost predicate Steps(cfg: Config, now: Time, s: State, t: State) {
    exists e, at: Time :: 0 < at <= now && Logged(cfg, at, s) && Legal(cfg, at, e, s) && Apply(cfg, at, e, s) == Some(t)
  }

  ghost predicate IsChain(cfg: Config, now: Time, chain: seq<State>) {
    chain != [] && forall i | 0 <= i < |chain| - 1 :: Steps(cfg, now, chain[i], chain[i + 1])
  }

  /** Legal updates lead from s to t. */
  ghost predicate Leads(cfg: Config, now: Time, s: State, t: State) {
    exists chain :: IsChain(cfg, now, chain) && chain[0] == s && chain[|chain| - 1] == t
  }

  lemma LeadsSelf(cfg: Config, now: Time, s: State)
    ensures Leads(cfg, now, s, s)
  {
    assert IsChain(cfg, now, [s]) && [s][0] == s && [s][|[s]| - 1] == s;
  }

  lemma LeadsStep(cfg: Config, now: Time, s: State, t: State)
    requires Steps(cfg, now, s, t)
    ensures Leads(cfg, now, s, t)
  {
    var chain := [s, t];
    assert IsChain(cfg, now, chain) && chain[0] == s && chain[|chain| - 1] == t;
  }

  lemma LeadsTrans(cfg: Config, now: Time, s: State, t: State, u: State)
    requires Leads(cfg, now, s, t) && Leads(cfg, now, t, u)
    ensures Leads(cfg, now, s, u)
  {
    var a :| IsChain(cfg, now, a) && a[0] == s && a[|a| - 1] == t;
    var b :| IsChain(cfg, now, b) && b[0] == t && b[|b| - 1] == u;
    var c := a + b[1..];
    forall i | 0 <= i < |c| - 1
      ensures Steps(cfg, now, c[i], c[i + 1])
    {
      if i < |a| - 1 {
        assert Steps(cfg, now, a[i], a[i + 1]);
      } else {
        assert Steps(cfg, now, b[i - |a| + 1], b[i - |a| + 2]);
      }
    }
    assert IsChain(cfg, now, c) && c[0] == s && c[|c| - 1] == u;
  }

  lemma StepsLater(cfg: Config, now: Time, later: Time, s: State, t: State)
    requires Steps(cfg, now, s, t) && now <= later
    ensures Steps(cfg, later, s, t)
  {}

  lemma LeadsLater(cfg: Config, now: Time, later: Time, s: State, t: State)
    requires Leads(cfg, now, s, t) && now <= later
    ensures Leads(cfg, later, s, t)
  {
    var a :| IsChain(cfg, now, a) && a[0] == s && a[|a| - 1] == t;
    forall i | 0 <= i < |a| - 1
      ensures Steps(cfg, later, a[i], a[i + 1])
    {
      StepsLater(cfg, now, later, a[i], a[i + 1]);
    }
    assert IsChain(cfg, later, a);
  }

  lemma StepsLogged(cfg: Config, now: Time, s: State, t: State)
    requires Steps(cfg, now, s, t)
    ensures Logged(cfg, now, s) && Logged(cfg, now, t)
  {
    var e, at :| 0 < at <= now && Logged(cfg, at, s) && Legal(cfg, at, e, s) && Apply(cfg, at, e, s) == Some(t);
    LogEdit(cfg, at, e, s, t);
    LogLater(cfg, at, now, s);
    LogLater(cfg, at, now, t);
  }

  // ---- what a batch does to each record --------------------------------------------------

  lemma {:induction false} ResumedEach(s: State, items: seq<Workflow>, now: Time, id: WorkflowId)
    ensures Lookup(ResumeEach(s, items, now), id)
         == if exists w <- items :: w.Id() == id then Resumed(Lookup(s, id), now) else Lookup(s, id)
    ensures ResumeEach(s, items, now).armedAt == s.armedAt
    ensures id in ResumeEach(s, items, now).workflows <==> id in s.workflows || exists w <- items :: w.Id() == id
  {
    if items != [] {
      var rest, last := items[..|items| - 1], items[|items| - 1];
      assert items == rest + [last];
      ResumedEach(s, rest, now, id);
      ResumedEach(s, rest, now, last.Id());
    }
  }

  lemma EnsuredRecords(s: State, zone: string, scheme: Scheme, now: Time, id: WorkflowId)
    ensures var t := EnsureRecords(s, zone, scheme, now);
            && t.armedAt == s.armedAt && t.notifications == s.notifications && t.idempotency == s.idempotency
            && (id in s.workflows ==> id in t.workflows && t.workflows[id] == s.workflows[id])
            && (id in t.workflows && id !in s.workflows ==>
                  id.zone == zone && !id.kind.Enroll? && t.workflows[id] == Fresh(id).(completedAt := now))
  {}

  /** Bootstrap adds records of its own zone and changes none. */
  lemma BootRecords(cfg: Config, s: State, zone: Zone, keys: seq<Key>, now: Time, id: WorkflowId)
    ensures var t := Bootstrap(cfg, s, zone, keys, now);
            var u := EnsureRecords(s, zone.name, KeyScheme(keys), now);
            && t.armedAt == s.armedAt && t.notifications == s.notifications
            && (id in s.workflows ==> id in t.workflows && t.workflows[id] == s.workflows[id])
            && (id in t.workflows && id !in s.workflows ==> id.zone == zone.name)
            && (id in t.workflows && id !in s.workflows && !id.kind.Enroll? ==> t.workflows[id] == Fresh(id).(completedAt := now))
            && (id in t.workflows && id !in s.workflows && id.kind.Enroll? ==>
                  Discovers(cfg, u, zone) && t.workflows[id] == FirstEnrollment(cfg, u, zone, keys, now))
  {
    EnsuredRecords(s, zone.name, KeyScheme(keys), now, id);
    var u := EnsureRecords(s, zone.name, KeyScheme(keys), now);
    FirstId(cfg, u, zone, keys, now);
  }

  lemma FirstId(cfg: Config, s: State, zone: Zone, keys: seq<Key>, now: Time)
    ensures FirstEnrollment(cfg, s, zone, keys, now).Id() == WorkflowId(zone.name, Enroll)
  {}

  /** Arming adds idle enroll records and changes none. */
  lemma {:induction false} BaselinedEach(s: State, zones: seq<Zone>, now: Time, id: WorkflowId)
    ensures var t := BaselineEach(s, zones, now);
            && t.armedAt == s.armedAt && t.notifications == s.notifications
            && (id in s.workflows ==> id in t.workflows && t.workflows[id] == s.workflows[id])
            && (id in t.workflows && id !in s.workflows ==>
                  id.kind.Enroll? && t.workflows[id] == Tombstone(id, t.workflows[id].zoneId, now))
            && (id.kind.Enroll? && (exists z <- zones :: z.name == id.zone && z.dnssec) ==> id in t.workflows)
  {
    if zones != [] {
      var rest, last := zones[..|zones| - 1], zones[|zones| - 1];
      assert zones == rest + [last];
      BaselinedEach(s, rest, now, id);
    }
  }

  // ---- every record is sound ---------------------------------------------------------------

  ghost predicate StateSound(cfg: Config, s: State) {
    forall id: WorkflowId :: Lookup(s, id).Id() == id && Sound(cfg, Lookup(s, id))
  }

  /** The states differ in records of one id, and that one is sound. */
  lemma SoundWrite(cfg: Config, s: State, t: State, x: Workflow)
    requires StateSound(cfg, s) && Sound(cfg, x) && t.workflows == s.workflows[x.Id() := x]
    ensures StateSound(cfg, t)
  {
    forall id: WorkflowId
      ensures Lookup(t, id).Id() == id && Sound(cfg, Lookup(t, id))
    {
      assert Lookup(t, id) == if id == x.Id() then x else Lookup(s, id);
    }
  }

  lemma SameSound(cfg: Config, s: State, t: State)
    requires StateSound(cfg, s) && t.workflows == s.workflows
    ensures StateSound(cfg, t)
  {
    forall id: WorkflowId
      ensures Lookup(t, id).Id() == id && Sound(cfg, Lookup(t, id))
    {
      assert Lookup(t, id) == Lookup(s, id);
    }
  }

  lemma BootSound(cfg: Config, now: Time, s: State, zone: Zone, keys: seq<Key>)
    requires StateSound(cfg, s) && ValidConfig(cfg)
    ensures StateSound(cfg, Bootstrap(cfg, s, zone, keys, now))
  {
    var scheme := KeyScheme(keys);
    IdleSound(cfg, s, WorkflowId(zone.name, ZSK), now);
    IdleSound(cfg, s, WorkflowId(zone.name, Split), now);
    IdleSound(cfg, AddIdle(s, WorkflowId(zone.name, ZSK), now), WorkflowId(zone.name, KSK), now);
    var t := EnsureRecords(s, zone.name, scheme, now);
    if Discovers(cfg, t, zone) {
      SoundWrite(cfg, t, Bootstrap(cfg, s, zone, keys, now), FirstEnrollment(cfg, t, zone, keys, now));
    }
  }

  lemma IdleSound(cfg: Config, s: State, id: WorkflowId, now: Time)
    requires StateSound(cfg, s)
    ensures StateSound(cfg, AddIdle(s, id, now))
  {
    SoundWrite(cfg, s, WithRecord(s, Fresh(id).(completedAt := now)), Fresh(id).(completedAt := now));
  }

  lemma RetrySound(cfg: Config, w: Workflow, now: Time)
    requires Sound(cfg, w) && (Due(w, now) || w.phase.Blocked?)
    ensures Sound(cfg, Retried(w, now))
  {
    BackoffBounds(w.attempts + 1);
  }

  lemma AttestSound(cfg: Config, w: Workflow, ttl: int, now: Time)
    requires Sound(cfg, w) && w.phase.WaitNewSignature? && w.kind.Split? && !w.reg.ctid.NoCtid?
    requires DAY <= ttl < TTL_LIMIT
    ensures Sound(cfg, Attested(cfg, w, ttl, now))
  {}

  lemma CompleteSound(cfg: Config, now: Time, s: State, w: Workflow)
    requires StateSound(cfg, s) && Works(now, s, w)
    ensures StateSound(cfg, CompleteState(cfg, s, w, now))
  {
    var t := CompleteState(cfg, s, w, now);
    forall id: WorkflowId
      ensures Lookup(t, id).Id() == id && Sound(cfg, Lookup(t, id))
    {
      CompletedLookup(cfg, now, w, s, id);
      assert Lookup(s, id).Id() == id && Sound(cfg, Lookup(s, id));
      if id != w.Id() && w.kind.Enroll? && id.zone == w.zone && (id.kind.KSK? || id.kind.ZSK?) {
        assert RecordOf(RecordsOf(s, w.zone), id.kind) == Lookup(s, id);
      }
    }
  }

  lemma TriggerSound(cfg: Config, now: Time, s: State, kind: Kind, zones: seq<string>, idem: string)
    requires StateSound(cfg, s) && !kind.Enroll? && forall z <- zones :: !AnyActive(s, z)
    ensures StateSound(cfg, StartAll(s, kind, zones, idem, now))
  {
    forall id: WorkflowId
      ensures Lookup(StartAll(s, kind, zones, idem, now), id).Id() == id && Sound(cfg, Lookup(StartAll(s, kind, zones, idem, now), id))
    {
      StartedEach(s, kind, zones, idem, now, id);
      if id.kind == kind && id.zone in zones {
        StartSound(cfg, now, s, id, true, idem);
      }
    }
  }

  lemma StartSound(cfg: Config, now: Time, s: State, id: WorkflowId, manual: bool, idem: string)
    requires StateSound(cfg, s) && !id.kind.Enroll? && !AnyActive(s, id.zone)
    ensures Sound(cfg, Started(Lookup(s, id), now, manual, idem))
  {
    assert !Lookup(s, id).Active() by {
      match id.kind case ZSK => case KSK => case Split => case Enroll =>
    }
  }

  lemma ResumeSound(cfg: Config, now: Time, s: State, items: seq<Workflow>)
    requires StateSound(cfg, s) && forall w <- items :: Resumable(s, w)
    ensures StateSound(cfg, ResumeEach(s, items, now))
  {
    forall id: WorkflowId
      ensures Lookup(ResumeEach(s, items, now), id).Id() == id && Sound(cfg, Lookup(ResumeEach(s, items, now), id))
    {
      ResumedEach(s, items, now, id);
    }
  }

  lemma ArmSound(cfg: Config, now: Time, s: State, zones: seq<Zone>)
    requires StateSound(cfg, s)
    ensures StateSound(cfg, BaselineEach(s, zones, now))
  {
    var t := BaselineEach(s, zones, now);
    forall id: WorkflowId
      ensures Lookup(t, id).Id() == id && Sound(cfg, Lookup(t, id))
    {
      BaselinedEach(s, zones, now, id);
      if id in s.workflows || id !in t.workflows {
        assert Lookup(t, id) == Lookup(s, id);
      } else {
        assert Lookup(t, id) == Tombstone(id, t.workflows[id].zoneId, now);
      }
    }
  }

  lemma MarkSound(cfg: Config, w: Workflow, now: Time)
    requires Sound(cfg, w)
    ensures w.phase.Prepublish? ==> forall zskSlot :: Sound(cfg, Marked(w, zskSlot, now))
    ensures (w.phase.ParentRemove? || w.phase.EnrollParentAdd?) && Due(w, now) ==> Sound(cfg, Requested(w, now))
    ensures w.Active() || !w.kind.Enroll? ==> Sound(cfg, BlockedRecord(w))
  {}

  /** Updates that write one record, the one a handler works on. */
  lemma StepSound(cfg: Config, now: Time, e: Edit, s: State, t: State)
    requires e.MarkCreate? || e.MarkReplace? || e.MarkEnroll? || e.Retry? || e.Block?
    requires ValidConfig(cfg) && now > 0 && StateSound(cfg, s) && Legal(cfg, now, e, s)
    requires Apply(cfg, now, e, s) == Some(t)
    ensures StateSound(cfg, t)
  {
    WritesOne(cfg, now, e, s, t);
    var w := Lookup(s, Target(e).value);
    assert w.Id() == Target(e).value && Sound(cfg, w);
    MarkSound(cfg, w, now);
    if e.Retry? {
      RetrySound(cfg, w, now);
    } else if !e.Block? {
      assert RecordOf(RecordsOf(s, w.zone), w.kind) == w;
    }
    SoundWrite(cfg, s, t, Written(now, e, s));
  }

  /** Control calls. */
  lemma ControlSound(cfg: Config, now: Time, e: Edit, s: State, t: State)
    requires e.TriggerAll? || e.ResumeAll? || e.Attest? || e.Arm?
    requires ValidConfig(cfg) && now > 0 && StateSound(cfg, s) && Legal(cfg, now, e, s)
    requires Apply(cfg, now, e, s) == Some(t)
    ensures StateSound(cfg, t)
  {
    match e
    case TriggerAll(kind, zones, idem, p) =>
      if idem !in s.idempotency {
        TriggerSound(cfg, now, s, kind, zones, idem);
        SameSound(cfg, StartAll(s, kind, zones, idem, now), t);
      }
    case ResumeAll(items, idem, p) =>
      if idem !in s.idempotency {
        ResumeSound(cfg, now, s, items);
        SameSound(cfg, ResumeEach(s, items, now), t);
      }
    case Attest(w, ttl, idem, p) =>
      if idem !in s.idempotency {
        AttestSound(cfg, w, ttl, now);
        SoundWrite(cfg, s, t, Attested(cfg, w, ttl, now));
      }
    case Arm(listing, idem) =>
      ArmSound(cfg, now, s, listing);
      SameSound(cfg, BaselineEach(s, listing, now), t);
  }

  /** One legal update keeps every record sound. */
  lemma EditSound(cfg: Config, now: Time, e: Edit, s: State, t: State)
    requires ValidConfig(cfg) && now > 0 && StateSound(cfg, s) && Legal(cfg, now, e, s)
    requires Apply(cfg, now, e, s) == Some(t)
    ensures StateSound(cfg, t)
  {
    if e.TriggerAll? || e.ResumeAll? || e.Attest? || e.Arm? {
      ControlSound(cfg, now, e, s, t);
    } else if e.MarkCreate? || e.MarkReplace? || e.MarkEnroll? || e.Retry? || e.Block? {
      StepSound(cfg, now, e, s, t);
    } else {
      OtherSound(cfg, now, e, s, t);
    }
  }

  lemma OtherSound(cfg: Config, now: Time, e: Edit, s: State, t: State)
    requires e.Boot? || e.Begin? || e.Put? || e.Complete? || e.Expire? || e.Deliver?
    requires ValidConfig(cfg) && now > 0 && StateSound(cfg, s) && Legal(cfg, now, e, s)
    requires Apply(cfg, now, e, s) == Some(t)
    ensures StateSound(cfg, t)
  {
    match e
    case Put(x) => SoundWrite(cfg, s, t, x);
    case Boot(zone, keys) => BootSound(cfg, now, s, zone, keys);
    case Begin(name, kind) =>
      StartSound(cfg, now, s, WorkflowId(name, kind), false, "");
      SoundWrite(cfg, s, t, Started(Lookup(s, WorkflowId(name, kind)), now, false, ""));
    case Complete(w) => CompleteSound(cfg, now, s, w);
    case Expire(_) => SameSound(cfg, s, t);
    case Deliver(_, _) => SameSound(cfg, s, t);
  }

  /** In every state the controller ever holds, every record is sound: phases fit their kind,
      recorded ids are distinct where they matter, idle records carry no leftovers and every
      wait lasts as long as its evidence demands. */
  lemma {:induction false} LoggedSound(cfg: Config, now: Time, s: State)
    requires ValidConfig(cfg) && Logged(cfg, now, s)
    ensures StateSound(cfg, s)
  {
    var log :| LegalLog(cfg, log, now) && Result(cfg, log) == s;
    LogSound(cfg, log, now);
  }

  lemma {:induction false} LogSound(cfg: Config, log: seq<Entry>, now: Time)
    requires ValidConfig(cfg) && LegalLog(cfg, log, now)
    ensures StateSound(cfg, Result(cfg, log))
  {
    if log != [] {
      var last := log[|log| - 1];
      var before := Result(cfg, log[..|log| - 1]);
      LogSound(cfg, log[..|log| - 1], last.now);
      var after := Apply(cfg, last.now, last.edit, before);
      if after.Some? {
        EditSound(cfg, last.now, last.edit, before, after.value);
      }
    }
  }

  // ---- at most one rotation ------------------------------------------------------------------

  /** At most one of the zone's three rotations is active. */
  predicate SoleRotation(s: State, zone: string) {
    var r := RecordsOf(s, zone);
    One(r.zsk.Active()) + One(r.ksk.Active()) + One(r.split.Active()) <= 1
  }

  /** A record wakes only where none was active. */
  lemma WrittenWakes(cfg: Config, now: Time, e: Edit, s: State)
    requires Target(e).Some? && Legal(cfg, now, e, s) && Apply(cfg, now, e, s).Some? && StateSound(cfg, s)
    ensures var id := Target(e).value;
            Written(now, e, s).Active() && !Lookup(s, id).Active() ==> !AnyActive(s, id.zone)
  {
    var w := Lookup(s, Target(e).value);
    assert w.Id() == Target(e).value && w == RecordOf(RecordsOf(s, w.zone), w.kind);
  }

  lemma WrittenSole(cfg: Config, now: Time, e: Edit, s: State, t: State, zone: string)
    requires Target(e).Some? && Legal(cfg, now, e, s) && Apply(cfg, now, e, s) == Some(t) && StateSound(cfg, s)
    requires SoleRotation(s, zone)
    ensures SoleRotation(t, zone)
  {
    WritesOne(cfg, now, e, s, t);
    WrittenWakes(cfg, now, e, s);
    var id := Target(e).value;
    forall kind: Kind | Lookup(t, WorkflowId(zone, kind)).Active() && !Lookup(s, WorkflowId(zone, kind)).Active()
      ensures kind == id.kind && !AnyActive(s, zone)
    {
      assert WorkflowId(zone, kind) == id;
    }
    SoleFrom(s, t, zone, id.kind);
  }

  /** Of the updates of many records only a Trigger wakes a rotation. */
  lemma BatchWakes(cfg: Config, now: Time, e: Edit, s: State, t: State, id: WorkflowId)
    requires Target(e).None? && Legal(cfg, now, e, s) && Apply(cfg, now, e, s) == Some(t) && StateSound(cfg, s)
    requires !id.kind.Enroll? && Lookup(t, id).Active() && !Lookup(s, id).Active()
    ensures e.TriggerAll? && id.kind == e.kind && !AnyActive(s, id.zone)
  {
    match e
    case TriggerAll(k, zones, idem, _) => StartedEach(s, k, zones, idem, now, id);
    case ResumeAll(items, _, _) => ResumedEach(s, items, now, id);
    case Arm(listing, _) => BaselinedEach(s, listing, now, id);
    case Boot(z, keys) => BootRecords(cfg, s, z, keys, now, id);
    case Complete(w) => CompletedLookup(cfg, now, w, s, id);
    case _ =>
  }

  lemma BatchSole(cfg: Config, now: Time, e: Edit, s: State, t: State, zone: string)
    requires Target(e).None? && Legal(cfg, now, e, s) && Apply(cfg, now, e, s) == Some(t) && StateSound(cfg, s)
    requires SoleRotation(s, zone)
    ensures SoleRotation(t, zone)
  {
    forall kind: Kind | !kind.Enroll? && Lookup(t, WorkflowId(zone, kind)).Active() && !Lookup(s, WorkflowId(zone, kind)).Active()
      ensures e.TriggerAll? && kind == e.kind && !AnyActive(s, zone)
    {
      BatchWakes(cfg, now, e, s, t, WorkflowId(zone, kind));
    }
    SoleFrom(s, t, zone, if e.TriggerAll? then e.kind else ZSK);
  }

  lemma SoleFrom(s: State, t: State, zone: string, woken: Kind)
    requires SoleRotation(s, zone)
    requires forall kind: Kind
               | !kind.Enroll? && Lookup(t, WorkflowId(zone, kind)).Active() && !Lookup(s, WorkflowId(zone, kind)).Active() ::
               kind == woken && !AnyActive(s, zone)
    ensures SoleRotation(t, zone)
  {
    var b := RecordsOf(t, zone);
    assert b.zsk == Lookup(t, WorkflowId(zone, ZSK)) && b.ksk == Lookup(t, WorkflowId(zone, KSK)) && b.split == Lookup(t, WorkflowId(zone, Split));
  }

  lemma {:induction false} LogSole(cfg: Config, log: seq<Entry>, now: Time, zone: string)
    requires ValidConfig(cfg) && LegalLog(cfg, log, now)
    ensures SoleRotation(Result(cfg, log), zone)
  {
    if log != [] {
      var shorter, last := log[..|log| - 1], log[|log| - 1];
      LogSole(cfg, shorter, last.now, zone);
      LogSound(cfg, shorter, last.now);
      var after := Apply(cfg, last.now, last.edit, Result(cfg, shorter));
      if after.Some? && Target(last.edit).Some? {
        WrittenSole(cfg, last.now, last.edit, Result(cfg, shorter), after.value, zone);
      } else if after.Some? {
        BatchSole(cfg, last.now, last.edit, Result(cfg, shorter), after.value, zone);
      }
    }
  }

  /** In every state the controller ever holds, at most one rotation of a zone is active: what
      may run beside it is an enrollment. */
  lemma OneRotation(cfg: Config, now: Time, s: State, zone: string)
    requires ValidConfig(cfg) && Logged(cfg, now, s)
    ensures SoleRotation(s, zone)
  {
    var log :| LegalLog(cfg, log, now) && Result(cfg, log) == s;
    LogSole(cfg, log, now, zone);
  }
}
