/** Every store.Update closure of the controller, as an edit of the whole state. An edit
    that returns None is a closure that returned an error: nothing is persisted. */
module Edits {
  import opened Model
  import opened Inventory

  datatype Edit =
    | Boot(zone: Zone, keys: seq<Key>)
    | Begin(name: string, kind: Kind)
    | Put(x: Workflow)                                  // transition
    | MarkCreate(w: Workflow, zskSlot: bool)            // recordCreateAttempt
    | MarkReplace(w: Workflow)                          // intent before the registrar write
    | MarkEnroll(w: Workflow)
    | Retry(id: WorkflowId)                             // recordRetry
    | Block(id: WorkflowId)
    | Complete(w: Workflow)
    | TriggerAll(kind: Kind, zones: seq<string>, idem: string, request: string)
    | ResumeAll(items: seq<Workflow>, idem: string, request: string)
    | Attest(w: Workflow, ttl: int, idem: string, request: string)
    | Arm(listing: seq<Zone>, idem: string)
    | Expire(ids: set<EventId>)
    | Deliver(event: EventId, sent: bool)

  function WithRecord(s: State, x: Workflow): State {
    s.(workflows := s.workflows[x.Id() := x])
  }

  predicate AnyActive(s: State, zone: string) {
    || Lookup(s, WorkflowId(zone, ZSK)).Active()
    || Lookup(s, WorkflowId(zone, KSK)).Active()
    || Lookup(s, WorkflowId(zone, Split)).Active()
    || Lookup(s, WorkflowId(zone, Enroll)).Active()
  }

  // ---- bootstrap ------------------------------------------------------------------

  function AddIdle(s: State, id: WorkflowId, now: Time): State {
    if id in s.workflows then s else WithRecord(s, Fresh(id).(completedAt := now))
  }

  function EnsureRecords(s: State, zone: string, scheme: Scheme, now: Time): State {
    match scheme
    case SplitScheme => AddIdle(AddIdle(s, WorkflowId(zone, ZSK), now), WorkflowId(zone, KSK), now)
    case CskScheme => AddIdle(s, WorkflowId(zone, Split), now)
    case UnknownScheme => s
  }

  function PendingEnrollments(s: State): set<WorkflowId> {
    set id <- s.workflows | id.kind.Enroll? && s.workflows[id].Active()
  }

  function RecentEnrollments(s: State, now: Time): set<WorkflowId> {
    set id <- s.workflows | id.kind.Enroll? && s.workflows[id].discoveredAt != UNSET
                            && now - s.workflows[id].discoveredAt < DAY
  }

  predicate BreakerOpen(cfg: Config, s: State, now: Time) {
    |PendingEnrollments(s)| >= cfg.maxPending || |RecentEnrollments(s, now)| >= cfg.maxNewPerDay
  }

  /** The enroll record a zone gets at its first reconciliation after arming. */
  function FirstEnrollment(cfg: Config, s: State, zone: Zone, keys: seq<Key>, now: Time): Workflow {
    var base := Fresh(WorkflowId(zone.name, Enroll)).(zoneId := zone.id);
    var found := EnrollmentInventory(cfg, keys, 0, 0, NoFingerprint);
    if KeyScheme(keys).CskScheme? then
      base.(completedAt := now, disposition := Ineligible)
    else if BreakerOpen(cfg, s, now) then
      base.(phase := Blocked, discoveredAt := now)
    else
      var candidate := base.(phase := EnrollDiscovered, startedAt := now, nextAt := now,
                             discoveredAt := now, parentMode := Initial, disposition := Candidate);
      if found.Some? then
        candidate.(newKey := found.value.0.id, newZsk := found.value.1.id, keyset := found.value.2,
                   nextAt := now + cfg.discoveryGrace)
      else candidate
  }

  predicate Discovers(cfg: Config, s: State, zone: Zone) {
    && WorkflowId(zone.name, Enroll) !in s.workflows
    && s.armedAt != UNSET && cfg.enrollEnabled && zone.name in cfg.enrollScope
  }

  function Bootstrap(cfg: Config, s: State, zone: Zone, keys: seq<Key>, now: Time): State {
    var t := EnsureRecords(s, zone.name, KeyScheme(keys), now);
    if Discovers(cfg, t, zone) then WithRecord(t, FirstEnrollment(cfg, t, zone, keys, now)) else t
  }

  // ---- one record -----------------------------------------------------------------

  function Started(w: Workflow, now: Time, manual: bool, idem: string): Workflow {
    w.(phase := Prepublish, startedAt := now, nextAt := now, attempts := 0, manual := manual, idem := idem)
  }

  function Marked(w: Workflow, zskSlot: bool, now: Time): Workflow {
    if zskSlot then w.(newZskTriedAt := now) else w.(newKeyTriedAt := now)
  }

  function Marker(w: Workflow, zskSlot: bool): Time {
    if zskSlot then w.newZskTriedAt else w.newKeyTriedAt
  }

  /** The record once its one registrar write has been announced. */
  function Requested(w: Workflow, now: Time): Workflow { w.(reg := w.reg.(attemptedAt := now)) }

  function Retried(w: Workflow, now: Time): Workflow {
    w.(attempts := w.attempts + 1, nextAt := now + Backoff(w.attempts + 1))
  }

  function BlockedRecord(w: Workflow): Workflow {
    w.(phase := Blocked, nextAt := UNSET)
  }

  function Completed(w: Workflow, current: Workflow, now: Time): Workflow {
    var x := Fresh(w.Id()).(completedAt := Max(now, current.completedAt));
    if w.kind.Enroll? then
      x.(zoneId := w.zoneId, newKey := w.newKey, newZsk := w.newZsk, discoveredAt := w.discoveredAt,
         keyset := w.keyset, disposition := Enrolled)
    else x
  }

  function CompletionEvent(w: Workflow, now: Time): Notification {
    Notification(CompletedEvent(w.zone, w.kind, now), w.zone, w.kind, now,
                 w.oldKey, w.newKey, w.newZsk, w.reg.stid, 0, now, false, UNSET)
  }

  function WithNotification(cfg: Config, s: State, n: Notification): State {
    if cfg.notify then s.(notifications := s.notifications[n.id := n]) else s
  }

  function CompleteState(cfg: Config, s: State, w: Workflow, now: Time): State {
    var ksk, zsk := Lookup(s, WorkflowId(w.zone, KSK)), Lookup(s, WorkflowId(w.zone, ZSK));
    var roles := if w.kind.Enroll? then
                   WithRecord(WithRecord(s, ksk.(zone := w.zone, kind := KSK, phase := Idle, completedAt := now)),
                              zsk.(zone := w.zone, kind := ZSK, phase := Idle, completedAt := now))
                 else s;
    WithNotification(cfg, WithRecord(roles, Completed(w, Lookup(s, w.Id()), now)), CompletionEvent(w, now))
  }

  function BlockState(cfg: Config, s: State, id: WorkflowId, now: Time): State {
    var x := BlockedRecord(Lookup(s, id));
    var t := s.(workflows := s.workflows[id := x]);
    var event := BlockedEvent(id.zone, id.kind, x.keyset);
    if id.kind.Enroll? && event !in s.notifications then
      WithNotification(cfg, t, Notification(event, id.zone, id.kind, now, 0, x.newKey, x.newZsk, "", 0, now, false, UNSET))
    else t
  }

  // ---- control calls --------------------------------------------------------------

  function StartAll(s: State, kind: Kind, zones: seq<string>, idem: string, now: Time): State {
    if zones == [] then s
    else
      var t := StartAll(s, kind, zones[..|zones| - 1], idem, now);
      var id := WorkflowId(zones[|zones| - 1], kind);
      t.(workflows := t.workflows[id := Started(Lookup(t, id), now, true, idem)])
  }

  function Resumed(w: Workflow, now: Time): Workflow {
    w.(phase := WaitPublish, startedAt := now, nextAt := now, evidenceAt := UNSET, dnskeyTtl := 0, attempts := 0)
  }

  predicate SameIds(a: Workflow, b: Workflow) {
    a.oldKey == b.oldKey && a.newKey == b.newKey && a.newZsk == b.newZsk
  }

  predicate StillBlocked(s: State, w: Workflow) {
    w.Id() in s.workflows && s.workflows[w.Id()].phase == Blocked && SameIds(s.workflows[w.Id()], w)
  }

  function ResumeEach(s: State, items: seq<Workflow>, now: Time): State {
    if items == [] then s
    else
      var t := ResumeEach(s, items[..|items| - 1], now);
      var id := items[|items| - 1].Id();
      t.(workflows := t.workflows[id := Resumed(Lookup(t, id), now)])
  }

  function Attested(cfg: Config, w: Workflow, ttl: int, now: Time): Workflow {
    w.(signerAt := now, evidenceAt := now, zoneTtl := ttl, nextAt := now + ttl + cfg.margin, attempts := 0)
  }

  /** The permanent idle record of a zone that was DNSSEC-enabled when enrollment was armed. */
  function Tombstone(id: WorkflowId, zoneId: string, now: Time): Workflow {
    Fresh(id).(zoneId := zoneId, completedAt := now, disposition := Baseline)
  }

  function BaselineEach(s: State, zones: seq<Zone>, now: Time): State {
    if zones == [] then s
    else
      var t := BaselineEach(s, zones[..|zones| - 1], now);
      var z := zones[|zones| - 1];
      var id := WorkflowId(z.name, Enroll);
      if !z.dnssec || id in t.workflows then t
      else WithRecord(t, Tombstone(id, z.id, now))
  }

  const ARM_PRINT := "enrollment-arm"

  // ---- outbox ---------------------------------------------------------------------

  predicate Undelivered(s: State, id: EventId) { id in s.notifications && s.notifications[id].deliveredAt == UNSET }

  /** Delivered, and kept for as long as configured. */
  predicate Expired(cfg: Config, n: Notification, now: Time) {
    n.deliveredAt != UNSET && now - n.deliveredAt > cfg.retention
  }

  predicate AllExpired(cfg: Config, s: State, ids: set<EventId>, now: Time) {
    forall id <- ids :: id in s.notifications ==> Expired(cfg, s.notifications[id], now)
  }

  predicate DueEvent(n: Notification, now: Time) {
    n.deliveredAt == UNSET && (n.nextAttemptAt == UNSET || now >= n.nextAttemptAt)
  }

  function AfterSend(n: Notification, sent: bool, now: Time): Notification {
    if sent then n.(deliveredAt := now, failed := false, nextAttemptAt := UNSET)
    else n.(attempts := n.attempts + 1, failed := true, nextAttemptAt := now + Backoff(n.attempts + 1))
  }

  /** The closures themselves. */
  function Apply(cfg: Config, now: Time, e: Edit, s: State): Option<State> {
    match e
    case Boot(zone, keys) => Some(Bootstrap(cfg, s, zone, keys, now))
    case Begin(name, kind) =>
      if AnyActive(s, name) then None
      else
        var id := WorkflowId(name, kind);
        Some(s.(workflows := s.workflows[id := Started(Lookup(s, id), now, false, "")]))
    case Put(x) => Some(WithRecord(s, x))
    case MarkCreate(w, zskSlot) =>
      var current := Lookup(s, w.Id());
      if current.phase != Prepublish || !SameIds(current, w) || Marker(current, zskSlot) != UNSET then None
      else Some(s.(workflows := s.workflows[w.Id() := Marked(current, zskSlot, now)]))
    case MarkReplace(w) =>
      var current := Lookup(s, w.Id());
      Some(s.(workflows := s.workflows[w.Id() := Requested(current, now)]))
    case MarkEnroll(w) =>
      var current := Lookup(s, w.Id());
      if current.phase != EnrollParentAdd || current.reg.ctid != w.reg.ctid || current.reg.attemptedAt != UNSET then None
      else Some(s.(workflows := s.workflows[w.Id() := Requested(current, now)]))
    case Retry(id) => Some(s.(workflows := s.workflows[id := Retried(Lookup(s, id), now)]))
    case Block(id) => Some(BlockState(cfg, s, id, now))
    case Complete(w) => Some(CompleteState(cfg, s, w, now))
    case TriggerAll(kind, zones, idem, p) =>
      if idem in s.idempotency then (if s.idempotency[idem] == p then Some(s) else None)
      else if exists z <- zones :: AnyActive(s, z) then None
      else
        var t := StartAll(s, kind, zones, idem, now);
        Some(t.(idempotency := t.idempotency[idem := p]))
    case ResumeAll(items, idem, p) =>
      if idem in s.idempotency then (if s.idempotency[idem] == p then Some(s) else None)
      else if exists w <- items :: !StillBlocked(s, w) then None
      else
        var t := ResumeEach(s, items, now);
        Some(t.(idempotency := t.idempotency[idem := p]))
    case Attest(w, ttl, idem, p) =>
      var current := Lookup(s, w.Id());
      if idem in s.idempotency then (if s.idempotency[idem] == p then Some(s) else None)
      else if current.phase != WaitNewSignature || !SameIds(current, w) || current.signerAt != UNSET then None
      else Some(s.(workflows := s.workflows[w.Id() := Attested(cfg, current, ttl, now)],
                   idempotency := s.idempotency[idem := p]))
    case Arm(listing, idem) =>
      if s.armedAt != UNSET then None
      else
        var t := BaselineEach(s, listing, now);
        Some(t.(armedAt := now, idempotency := t.idempotency[idem := ARM_PRINT]))
    case Expire(ids) => Some(s.(notifications := s.notifications - ids))
    case Deliver(event, sent) =>
      if event !in s.notifications || s.notifications[event].deliveredAt != UNSET then Some(s)
      else Some(s.(notifications := s.notifications[event := AfterSend(s.notifications[event], sent, now)]))
  }

  /** The one record most updates write. */
  function Target(e: Edit): Option<WorkflowId> {
    match e
    case Begin(name, kind) => Some(WorkflowId(name, kind))
    case Put(x) => Some(x.Id())
    case MarkCreate(w, _) => Some(w.Id())
    case MarkReplace(w) => Some(w.Id())
    case MarkEnroll(w) => Some(w.Id())
    case Retry(id) => Some(id)
    case Block(id) => Some(id)
    case _ => None
  }

  /** What it becomes. */
  function Written(now: Time, e: Edit, s: State): Workflow
    requires Target(e).Some?
  {
    var w := Lookup(s, Target(e).value);
    match e
    case Begin(_, _) => Started(w, now, false, "")
    case Put(x) => x
    case MarkCreate(_, zskSlot) => Marked(w, zskSlot, now)
    case MarkReplace(_) => Requested(w, now)
    case MarkEnroll(_) => Requested(w, now)
    case Retry(_) => Retried(w, now)
    case Block(_) => BlockedRecord(w)
  }

  lemma WritesOne(cfg: Config, now: Time, e: Edit, s: State, t: State)
    requires Target(e).Some? && Apply(cfg, now, e, s) == Some(t)
    ensures t.workflows == s.workflows[Target(e).value := Written(now, e, s)]
  {
    if e.Block? {
      assert BlockState(cfg, s, e.id, now).workflows == s.workflows[e.id := BlockedRecord(Lookup(s, e.id))];
    }
  }

  /** Updates of a reconciliation stay within their zone. */
  predicate Scoped(e: Edit, zone: string) {
    if Target(e).Some? then Target(e).value.zone == zone else e.Complete? && e.w.zone == zone
  }

  lemma CompletedLookup(cfg: Config, now: Time, w: Workflow, s: State, id: WorkflowId)
    ensures Lookup(CompleteState(cfg, s, w, now), id)
         == if id == w.Id() then Completed(w, Lookup(s, id), now)
            else if w.kind.Enroll? && id.zone == w.zone && (id.kind.KSK? || id.kind.ZSK?) then
              Lookup(s, id).(zone := w.zone, kind := id.kind, phase := Idle, completedAt := now)
            else Lookup(s, id)
  {}
}
