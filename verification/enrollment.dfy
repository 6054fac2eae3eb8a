/** The enrollment circuit breaker and the tombstones, over every log of legal updates. */
module Enrollment {
  import opened Model
  import opened Inventory
  import opened Edits
  import opened Good
  import opened Legitimacy
  import opened Races
  import opened Logs
  import opened Calls

  /** Enroll records of zones the breaker let through, discovered within a day from t. */
  function Admitted(s: State, t: Time): set<WorkflowId> {
    set id <- s.workflows | id.kind.Enroll? && LetThrough(s.workflows[id]) && t <= s.workflows[id].discoveredAt < t + DAY
  }

  predicate LetThrough(w: Workflow) { w.discoveredAt != UNSET && !w.disposition.NoDisposition? }

  /** Enrollments in progress, the blocked ones not counted. */
  function Running(s: State): set<WorkflowId> {
    set id <- s.workflows | id.kind.Enroll? && s.workflows[id].Active() && !s.workflows[id].phase.Blocked?
  }

  predicate EnrollRecord(w: Workflow, now: Time) {
    && w.discoveredAt <= now
    && (w.Active() && !w.phase.Blocked? ==> w.disposition.Candidate? && w.discoveredAt != UNSET)
  }

  ghost predicate EnrollInv(cfg: Config, now: Time, s: State) {
    && (forall id <- s.workflows :: id.kind.Enroll? ==> EnrollRecord(s.workflows[id], now) && s.armedAt != UNSET)
    && (forall t :: |Admitted(s, t)| <= cfg.maxNewPerDay)
    && |Running(s)| <= cfg.maxPending
  }

  // ---- what one update does to an enroll record --------------------------------------------

  /** An enroll record never disappears, never leaves idle or blocked, and keeps the moment
      of its discovery and whether the breaker let it through. */
  predicate EnrollStep(x: Workflow, y: Workflow) {
    && (!x.Active() ==> y == x)
    && (x.phase.Blocked? ==> y.phase.Blocked?)
    && y.discoveredAt == x.discoveredAt
    && (LetThrough(x) <==> LetThrough(y))
    && (y.Active() && !y.phase.Blocked? ==> y.disposition == x.disposition)
  }

  lemma WrittenStep(cfg: Config, now: Time, e: Edit, s: State)
    requires now > 0 && Target(e).Some? && Target(e).value.kind.Enroll? && Legal(cfg, now, e, s)
    requires StateSound(cfg, s) && EnrollRecord(Lookup(s, Target(e).value), now)
    requires !e.Begin?
    ensures EnrollStep(Lookup(s, Target(e).value), Written(now, e, s))
  {
    var w := Lookup(s, Target(e).value);
    assert w.Id() == Target(e).value;
    if e.Put? || e.MarkCreate? || e.MarkReplace? || e.MarkEnroll? {
      OnlyIsActive(s, w);
    }
  }

  /** Every update but bootstrap and arming, on every enroll record. */
  lemma EditStep(cfg: Config, now: Time, e: Edit, s: State, t: State, id: WorkflowId)
    requires now > 0 && Legal(cfg, now, e, s) && Apply(cfg, now, e, s) == Some(t) && StateSound(cfg, s)
    requires id.kind.Enroll? && id in s.workflows && EnrollRecord(s.workflows[id], now)
    ensures id in t.workflows && EnrollStep(s.workflows[id], t.workflows[id])
  {
    assert Lookup(s, id).Id() == id;
    if Target(e).Some? {
      WritesOne(cfg, now, e, s, t);
      if Target(e).value == id {
        WrittenStep(cfg, now, e, s);
      }
    } else if e.Complete? {
      CompleteStep(cfg, now, s, e.w, id);
    } else {
      BatchStep(cfg, now, e, s, t, id);
    }
  }

  lemma CompleteStep(cfg: Config, now: Time, s: State, w: Workflow, id: WorkflowId)
    requires Works(now, s, w) && MayFinish(w) && Sound(cfg, w) && id.kind.Enroll? && id in s.workflows
    requires EnrollRecord(s.workflows[id], now)
    ensures var t := CompleteState(cfg, s, w, now); id in t.workflows && EnrollStep(s.workflows[id], t.workflows[id])
  {
    OnlyIsActive(s, w);
    var t := CompleteState(cfg, s, w, now);
    if id == w.Id() {
      assert t.workflows[id] == Completed(w, w, now);
    } else {
      assert t.workflows[id] == s.workflows[id];
    }
  }

  lemma BatchStep(cfg: Config, now: Time, e: Edit, s: State, t: State, id: WorkflowId)
    requires Target(e).None? && !e.Complete? && Legal(cfg, now, e, s) && Apply(cfg, now, e, s) == Some(t)
    requires id.kind.Enroll? && id in s.workflows && StateSound(cfg, s)
    ensures id in t.workflows && t.workflows[id] == s.workflows[id]
  {
    match e
    case TriggerAll(kind, zones, idem, _) => StartedEach(s, kind, zones, idem, now, id);
    case ResumeAll(items, _, _) => ResumedEach(s, items, now, id);
    case Arm(listing, _) => BaselinedEach(s, listing, now, id);
    case Boot(zone, keys) => BootRecords(cfg, s, zone, keys, now, id);
    case _ =>
  }

  /** A new enroll record is a tombstone of the arming or the bootstrap's one decision. */
  lemma NewEnroll(cfg: Config, now: Time, e: Edit, s: State, t: State, id: WorkflowId)
    requires now > 0 && Legal(cfg, now, e, s) && Apply(cfg, now, e, s) == Some(t) && StateSound(cfg, s)
    requires id.kind.Enroll? && id in t.workflows && id !in s.workflows
    ensures || (e.Arm? && t.workflows[id] == Tombstone(id, t.workflows[id].zoneId, now))
            || (e.Boot? && id == WorkflowId(e.zone.name, Enroll)
                && var u := EnsureRecords(s, e.zone.name, KeyScheme(e.keys), now);
                   Discovers(cfg, u, e.zone) && t.workflows[id] == FirstEnrollment(cfg, u, e.zone, e.keys, now))
  {
    if Target(e).Some? {
      WritesOne(cfg, now, e, s, t);
      WrittenTargets(cfg, now, e, s);
    } else {
      match e
      case TriggerAll(kind, zones, idem, _) => StartedEach(s, kind, zones, idem, now, id);
      case ResumeAll(items, _, _) =>
        ResumedEach(s, items, now, id);
      case Arm(listing, _) => BaselinedEach(s, listing, now, id);
      case Boot(zone, keys) => BootRecords(cfg, s, zone, keys, now, id);
      case Complete(w) => OnlyIsActive(s, w);
      case _ =>
    }
  }

  /** Handlers only write records that exist. */
  lemma WrittenTargets(cfg: Config, now: Time, e: Edit, s: State)
    requires Target(e).Some? && Legal(cfg, now, e, s) && Target(e).value.kind.Enroll? && StateSound(cfg, s)
    ensures Target(e).value in s.workflows
  {
    var id := Target(e).value;
    if id !in s.workflows {
      assert Lookup(s, id) == Fresh(id);
      if e.Put? || e.MarkCreate? || e.MarkReplace? || e.MarkEnroll? {
        OnlyIsActive(s, Lookup(s, id));
      }
    }
  }

  lemma ArmedStays(cfg: Config, now: Time, e: Edit, s: State, t: State)
    requires now > 0 && Apply(cfg, now, e, s) == Some(t)
    ensures s.armedAt != UNSET ==> t.armedAt == s.armedAt
    ensures e.Arm? ==> s.armedAt == UNSET && t.armedAt == now
    ensures !e.Arm? ==> t.armedAt == s.armedAt
  {
    match e
    case TriggerAll(kind, zones, idem, _) => StartedEach(s, kind, zones, idem, now, WorkflowId("", ZSK));
    case ResumeAll(items, _, _) => ResumedEach(s, items, now, WorkflowId("", ZSK));
    case Arm(listing, _) =>
    case Boot(zone, keys) => BootRecords(cfg, s, zone, keys, now, WorkflowId("", ZSK));
    case _ =>
  }

  // ---- counting ------------------------------------------------------------------------------

  lemma {:induction false} SubsetSize<T>(a: set<T>, b: set<T>)
    requires a <= b
    ensures |a| <= |b|
  {
    if x :| x in a {
      SubsetSize(a - {x}, b - {x});
    }
  }

  lemma OneMore<T>(a: set<T>, b: set<T>, x: T)
    requires a <= b + {x}
    ensures |a| <= |b| + 1
  {
    SubsetSize(a, b + {x});
  }

  /** Old records contribute to the counts at most what they did before. */
  lemma OldCounts(cfg: Config, now: Time, e: Edit, s: State, t: State, u: Time, id: WorkflowId)
    requires now > 0 && Legal(cfg, now, e, s) && Apply(cfg, now, e, s) == Some(t) && StateSound(cfg, s)
    requires EnrollInv(cfg, now, s)
    requires id in s.workflows
    ensures id in Admitted(t, u) ==> id in Admitted(s, u)
    ensures id in Running(t) ==> id in Running(s)
  {
    if id.kind.Enroll? {
      EditStep(cfg, now, e, s, t, id);
    }
  }

  /** What bootstrap's decision adds to the counts. */
  lemma FirstCounts(cfg: Config, s: State, zone: Zone, keys: seq<Key>, now: Time)
    requires now > 0
    ensures var x := FirstEnrollment(cfg, s, zone, keys, now);
            && EnrollRecord(x, now)
            && (LetThrough(x) || (x.Active() && !x.phase.Blocked?) ==> x.discoveredAt == now && !BreakerOpen(cfg, s, now))
  {}

  lemma EnsuredCounts(s: State, zone: string, scheme: Scheme, now: Time)
    ensures var u := EnsureRecords(s, zone, scheme, now);
            && PendingEnrollments(u) == PendingEnrollments(s) && RecentEnrollments(u, now) == RecentEnrollments(s, now)
  {
    forall id: WorkflowId {
      EnsuredRecords(s, zone, scheme, now, id);
    }
    var u := EnsureRecords(s, zone, scheme, now);
    forall id | id in PendingEnrollments(u)
      ensures id in PendingEnrollments(s)
    {
      EnsuredRecords(s, zone, scheme, now, id);
    }
    forall id | id in PendingEnrollments(s)
      ensures id in PendingEnrollments(u)
    {
      EnsuredRecords(s, zone, scheme, now, id);
    }
    forall id | id in RecentEnrollments(u, now)
      ensures id in RecentEnrollments(s, now)
    {
      EnsuredRecords(s, zone, scheme, now, id);
    }
    forall id | id in RecentEnrollments(s, now)
      ensures id in RecentEnrollments(u, now)
    {
      EnsuredRecords(s, zone, scheme, now, id);
    }
  }

  /** The enroll id an update may add to the counts. */
  function NewId(e: Edit): WorkflowId {
    if e.Boot? then WorkflowId(e.zone.name, Enroll) else WorkflowId("", ZSK)
  }

  lemma NewCounts(cfg: Config, now: Time, e: Edit, s: State, t: State, u: Time, id: WorkflowId)
    requires now > 0 && Legal(cfg, now, e, s) && Apply(cfg, now, e, s) == Some(t) && StateSound(cfg, s)
    requires EnrollInv(cfg, now, s)
    requires id !in s.workflows && (id in Admitted(t, u) || id in Running(t))
    ensures e.Boot? && id == NewId(e) && !BreakerOpen(cfg, s, now) && t.workflows[id].discoveredAt == now
  {
    NewEnroll(cfg, now, e, s, t, id);
    if e.Boot? {
      var v := EnsureRecords(s, e.zone.name, KeyScheme(e.keys), now);
      EnsuredCounts(s, e.zone.name, KeyScheme(e.keys), now);
      FirstCounts(cfg, v, e.zone, e.keys, now);
    }
  }

  lemma WindowKept(cfg: Config, now: Time, e: Edit, s: State, t: State, u: Time)
    requires ValidConfig(cfg) && now > 0 && Legal(cfg, now, e, s) && Apply(cfg, now, e, s) == Some(t)
    requires StateSound(cfg, s) && EnrollInv(cfg, now, s)
    ensures |Admitted(t, u)| <= cfg.maxNewPerDay
  {
    forall id | id in Admitted(t, u)
      ensures id in Admitted(s, u) || (id == NewId(e) && id !in s.workflows)
    {
      if id in s.workflows {
        OldCounts(cfg, now, e, s, t, u, id);
      } else {
        NewCounts(cfg, now, e, s, t, u, id);
      }
    }
    if NewId(e) in Admitted(t, u) && NewId(e) !in s.workflows {
      NewCounts(cfg, now, e, s, t, u, NewId(e));
      assert Admitted(s, u) <= RecentEnrollments(s, now);
      SubsetSize(Admitted(s, u), RecentEnrollments(s, now));
      OneMore(Admitted(t, u), Admitted(s, u), NewId(e));
    } else {
      assert Admitted(t, u) <= Admitted(s, u);
      SubsetSize(Admitted(t, u), Admitted(s, u));
    }
  }

  lemma RunningKept(cfg: Config, now: Time, e: Edit, s: State, t: State)
    requires ValidConfig(cfg) && now > 0 && Legal(cfg, now, e, s) && Apply(cfg, now, e, s) == Some(t)
    requires StateSound(cfg, s) && EnrollInv(cfg, now, s)
    ensures |Running(t)| <= cfg.maxPending
  {
    forall id | id in Running(t)
      ensures id in Running(s) || (id == NewId(e) && id !in s.workflows)
    {
      if id in s.workflows {
        OldCounts(cfg, now, e, s, t, 0, id);
      } else {
        NewCounts(cfg, now, e, s, t, 0, id);
      }
    }
    if NewId(e) in Running(t) && NewId(e) !in s.workflows {
      NewCounts(cfg, now, e, s, t, 0, NewId(e));
      assert Running(s) <= PendingEnrollments(s);
      SubsetSize(Running(s), PendingEnrollments(s));
      OneMore(Running(t), Running(s), NewId(e));
    } else {
      assert Running(t) <= Running(s);
      SubsetSize(Running(t), Running(s));
    }
  }

  lemma RecordsKept(cfg: Config, now: Time, e: Edit, s: State, t: State, id: WorkflowId)
    requires now > 0 && Legal(cfg, now, e, s) && Apply(cfg, now, e, s) == Some(t) && StateSound(cfg, s)
    requires EnrollInv(cfg, now, s)
    requires id in t.workflows && id.kind.Enroll?
    ensures EnrollRecord(t.workflows[id], now) && t.armedAt != UNSET
  {
    ArmedStays(cfg, now, e, s, t);
    if id in s.workflows {
      EditStep(cfg, now, e, s, t, id);
      OldActive(cfg, now, e, s, t, id);
    } else {
      NewEnroll(cfg, now, e, s, t, id);
      if e.Boot? {
        var v := EnsureRecords(s, e.zone.name, KeyScheme(e.keys), now);
        EnsuredRecords(s, e.zone.name, KeyScheme(e.keys), now, id);
        FirstCounts(cfg, v, e.zone, e.keys, now);
      }
    }
  }

  lemma OldActive(cfg: Config, now: Time, e: Edit, s: State, t: State, id: WorkflowId)
    requires id in s.workflows && id in t.workflows && EnrollStep(s.workflows[id], t.workflows[id])
    requires EnrollRecord(s.workflows[id], now)
    ensures EnrollRecord(t.workflows[id], now)
  {}

  lemma EditEnroll(cfg: Config, now: Time, e: Edit, s: State, t: State)
    requires ValidConfig(cfg) && now > 0 && Legal(cfg, now, e, s) && Apply(cfg, now, e, s) == Some(t)
    requires StateSound(cfg, s) && EnrollInv(cfg, now, s)
    ensures EnrollInv(cfg, now, t)
  {
    forall id | id in t.workflows && id.kind.Enroll?
      ensures EnrollRecord(t.workflows[id], now) && t.armedAt != UNSET
    {
      RecordsKept(cfg, now, e, s, t, id);
    }
    forall u
      ensures |Admitted(t, u)| <= cfg.maxNewPerDay
    {
      WindowKept(cfg, now, e, s, t, u);
    }
    RunningKept(cfg, now, e, s, t);
  }

  // ---- the theorems ------------------------------------------------------------------------------

  lemma {:induction false} LogEnroll(cfg: Config, log: seq<Entry>, now: Time)
    requires ValidConfig(cfg) && LegalLog(cfg, log, now)
    ensures EnrollInv(cfg, now, Result(cfg, log))
  {
    if log == [] {
      assert forall t :: Admitted(EMPTY_STATE, t) == {};
      assert Running(EMPTY_STATE) == {};
    } else {
      var last := log[|log| - 1];
      var before := Result(cfg, log[..|log| - 1]);
      LogEnroll(cfg, log[..|log| - 1], last.now);
      LogSound(cfg, log[..|log| - 1], last.now);
      var after := Apply(cfg, last.now, last.edit, before);
      if after.Some? {
        EditEnroll(cfg, last.now, last.edit, before, after.value);
      }
    }
  }

  /** The circuit breaker: in any state ever held, no day-long window contains the discovery
      of more zones let through than allowed, and no more enrollments run than allowed. */
  lemma BreakerHolds(cfg: Config, now: Time, s: State, t: Time)
    requires ValidConfig(cfg) && Logged(cfg, now, s)
    ensures |Admitted(s, t)| <= cfg.maxNewPerDay && |Running(s)| <= cfg.maxPending
  {
    var log :| LegalLog(cfg, log, now) && Result(cfg, log) == s;
    LogEnroll(cfg, log, now);
  }

  lemma LoggedEnroll(cfg: Config, now: Time, s: State)
    requires ValidConfig(cfg) && Logged(cfg, now, s)
    ensures EnrollInv(cfg, now, s)
  {
    var log :| LegalLog(cfg, log, now) && Result(cfg, log) == s;
    LogEnroll(cfg, log, now);
  }

  lemma StepsEnroll(cfg: Config, now: Time, s: State, t: State, id: WorkflowId)
    requires ValidConfig(cfg) && Steps(cfg, now, s, t) && id.kind.Enroll? && id in s.workflows
    ensures id in t.workflows && EnrollStep(s.workflows[id], t.workflows[id])
  {
    var e, at: Time :| 0 < at <= now && Logged(cfg, at, s) && Legal(cfg, at, e, s) && Apply(cfg, at, e, s) == Some(t);
    LoggedSound(cfg, at, s);
    LoggedEnroll(cfg, at, s);
    EditStep(cfg, at, e, s, t, id);
  }

  /** Later updates neither remove an enroll record nor wake an idle one, and never change when
      it was discovered or whether the breaker let it through: the window counts above count
      every admission there ever was. */
  lemma RecordsLast(cfg: Config, now: Time, s: State, t: State, id: WorkflowId)
    requires ValidConfig(cfg) && Leads(cfg, now, s, t) && id.kind.Enroll? && id in s.workflows
    ensures id in t.workflows && EnrollStep(s.workflows[id], t.workflows[id])
  {
    var chain :| IsChain(cfg, now, chain) && chain[0] == s && chain[|chain| - 1] == t;
    ChainEnroll(cfg, now, chain, |chain| - 1, id);
  }

  lemma {:induction false} ChainEnroll(cfg: Config, now: Time, chain: seq<State>, n: nat, id: WorkflowId)
    requires ValidConfig(cfg) && IsChain(cfg, now, chain) && n < |chain|
    requires id.kind.Enroll? && id in chain[0].workflows
    ensures id in chain[n].workflows && EnrollStep(chain[0].workflows[id], chain[n].workflows[id])
  {
    if n > 0 {
      ChainEnroll(cfg, now, chain, n - 1, id);
      assert Steps(cfg, now, chain[n - 1], chain[n - 1 + 1]);
      StepsEnroll(cfg, now, chain[n - 1], chain[n], id);
    }
  }

  /** The record of a zone that was DNSSEC-enabled when enrollment was armed. */
  predicate Buried(s: State, zone: string) {
    var id := WorkflowId(zone, Enroll);
    id in s.workflows && !s.workflows[id].Active() && s.workflows[id].disposition.Baseline?
  }

  /** Arming makes every DNSSEC-enabled zone it lists idle for good. */
  lemma ArmingBuries(cfg: Config, at: Time, s: State, armed: State, listing: seq<Zone>, idem: string, zone: Zone,
                     now: Time, t: State)
    requires ValidConfig(cfg) && Logged(cfg, at, s) && Apply(cfg, at, Arm(listing, idem), s) == Some(armed)
    requires zone in listing && zone.dnssec && Leads(cfg, now, armed, t)
    ensures Buried(armed, zone.name) && Buried(t, zone.name)
  {
    var id := WorkflowId(zone.name, Enroll);
    LoggedEnroll(cfg, at, s);
    BaselinedEach(s, listing, at, id);
    assert armed.workflows == BaselineEach(s, listing, at).workflows;
    RecordsLast(cfg, now, armed, t, id);
  }
}
