/** What a single reconciliation may ever do to its workflow, whatever the evidence: the
    shape of every plan, the invariants of a record, and the measure that shrinks. */
module Legitimacy {
  import opened Model
  import opened Inventory
  import opened Edits
  import opened Plans
  import opened Good
  import PublishSafety
  import ParentSafety

  // ---- records -------------------------------------------------------------------------

  /** The phases each kind of workflow can be in. */
  predicate Compatible(kind: Kind, phase: Phase) {
    match phase
    case Idle | Blocked => true
    case Prepublish | WaitPublish | DeactivateOld | DeleteOld => !kind.Enroll?
    case ActivateNew | WaitNewSignature | WaitRetire => kind.ZSK? || kind.Split?
    case ParentRemove | WaitParentRemove => kind.KSK? || kind.Split?
    case EnrollDiscovered | EnrollWaitPublish | EnrollParentAdd | EnrollWaitParent => kind.Enroll?
  }

  predicate RecordedIds(w: Workflow) {
    w.oldKey != 0 && w.newKey != 0 && w.oldKey != w.newKey && (w.kind.Split? ==> DistinctSplitIds(w))
  }

  /** Phases that follow an exact inventory check of the recorded keys. */
  predicate PastPublication(p: Phase) {
    p.ActivateNew? || p.ParentRemove? || p.WaitParentRemove? || p.WaitNewSignature? || p.DeactivateOld? || p.WaitRetire? || p.DeleteOld?
  }

  predicate PastParent(p: Phase) {
    p.WaitParentRemove? || p.ActivateNew? || p.WaitNewSignature? || p.DeactivateOld? || p.WaitRetire? || p.DeleteOld?
  }

  predicate Signed(p: Phase) { p.WaitNewSignature? || p.DeactivateOld? || p.WaitRetire? || p.DeleteOld? }

  predicate BeforeDs(w: Workflow) {
    || w.phase.Prepublish? || w.phase.WaitPublish? || w.phase.ParentRemove?
    || w.phase.EnrollDiscovered? || w.phase.EnrollWaitPublish? || w.phase.EnrollParentAdd?
    || ((w.phase.WaitParentRemove? || w.phase.EnrollWaitParent?) && w.evidenceAt == UNSET)
  }

  /** Every wait that rests on recorded evidence lasts as long as that evidence demands. */
  predicate Waits(cfg: Config, w: Workflow) {
    var zoneWait := w.zoneTtl + cfg.margin;
    match w.phase
    case WaitPublish | EnrollWaitPublish =>
      w.evidenceAt != UNSET ==> w.nextAt >= w.evidenceAt + Max(w.dnskeyTtl, cfg.minDnskeyWait) + cfg.margin
    case WaitParentRemove | EnrollWaitParent =>
      w.evidenceAt != UNSET ==> w.nextAt >= w.evidenceAt + Max(w.dsTtl, cfg.minParentWait) + cfg.margin
    case WaitNewSignature | DeactivateOld =>
      && (w.evidenceAt != UNSET ==> w.nextAt >= w.evidenceAt + zoneWait)
      && (w.signerAt != UNSET ==> w.nextAt >= w.signerAt + zoneWait)
    case WaitRetire => w.nextAt >= w.startedAt + zoneWait
    case _ => true
  }

  /** The earliest an enrollment may ask the registrar. */
  function Patience(cfg: Config, w: Workflow): Time {
    w.discoveredAt + cfg.discoveryGrace + Max(w.dnskeyTtl, cfg.minDnskeyWait) + cfg.margin
  }

  /** Enrollment waits out the discovery grace, then the publication. */
  predicate Paced(cfg: Config, w: Workflow) {
    match w.phase
    case EnrollDiscovered =>
      w.nextAt >= w.discoveredAt + (if Unclassified(w) then 0 else cfg.discoveryGrace) && w.reg.attemptedAt == UNSET
    case EnrollWaitPublish =>
      && w.reg.attemptedAt == UNSET && w.nextAt >= w.discoveredAt + cfg.discoveryGrace
      && (w.evidenceAt != UNSET ==> w.evidenceAt >= w.discoveredAt + cfg.discoveryGrace)
    case EnrollParentAdd =>
      w.nextAt >= Patience(cfg, w) && (w.reg.attemptedAt != UNSET ==> w.reg.attemptedAt >= Patience(cfg, w))
    case _ => true
  }

  predicate Sound(cfg: Config, w: Workflow) {
    && Compatible(w.kind, w.phase)
    && (w.zoneTtl == 0 || DAY <= w.zoneTtl < TTL_LIMIT) && 0 <= w.dsTtl < TTL_LIMIT
    && (!w.Active() && !w.kind.Enroll? ==> Clean(w))
    && (PastPublication(w.phase) ==> RecordedIds(w))
    && (PastParent(w.phase) && !w.kind.ZSK? ==> !w.reg.ctid.NoCtid?)
    && (w.reg.ctid.NoCtid? && !w.kind.Enroll? ==> w.dsTtl == 0 && w.signerAt == UNSET)
    && (w.kind.ZSK? ==> w.reg.ctid.NoCtid?)
    && (w.signerAt != UNSET ==> w.kind.Split? && (Signed(w.phase) || w.phase.Blocked?))
    && (BeforeDs(w) ==> w.dsTtl == 0)
    && (w.phase.WaitNewSignature? && (w.evidenceAt != UNSET || w.signerAt != UNSET) ==> w.zoneTtl >= DAY)
    && ((w.phase.DeactivateOld? || w.phase.WaitRetire? || w.phase.DeleteOld?) && !w.kind.KSK? ==> w.zoneTtl >= DAY)
    && (w.phase.EnrollWaitPublish? || w.phase.EnrollParentAdd? || w.phase.EnrollWaitParent? ==> !Unclassified(w))
    && (w.kind.Enroll? && w.Active() ==> !w.disposition.Baseline?)
    && Waits(cfg, w) && Paced(cfg, w)
  }

  // ---- the measure ---------------------------------------------------------------------

  function Rank(p: Phase): nat {
    match p
    case Prepublish => 9
    case WaitPublish => 8
    case ParentRemove => 7
    case WaitParentRemove => 6
    case ActivateNew => 5
    case WaitNewSignature => 4
    case DeactivateOld => 3
    case WaitRetire => 2
    case DeleteOld => 1
    case EnrollDiscovered => 4
    case EnrollWaitPublish => 3
    case EnrollParentAdd => 2
    case EnrollWaitParent => 1
    case Idle | Blocked => 0
  }

  /** What the current phase still has to record before it can be left. */
  function Slots(w: Workflow): nat {
    match w.phase
    case Prepublish =>
      One(w.oldKey == 0) + One(w.parentMode.NoMode?) + One(w.newKey == 0) + One(w.newZsk == 0)
    case WaitPublish | EnrollWaitPublish | WaitNewSignature => One(w.evidenceAt == UNSET)
    case ParentRemove | EnrollParentAdd => One(w.reg.ctid.NoCtid?)
    case WaitParentRemove | EnrollWaitParent => One(AwaitsJob(w)) + One(w.evidenceAt == UNSET)
    case EnrollDiscovered => One(Unclassified(w))
    case _ => 0
  }

  /** Lexicographically: TTL head-room of the zone, of the parent, phases left, slots left. */
  predicate Smaller(x: Workflow, w: Workflow) {
    || x.zoneTtl > w.zoneTtl
    || (x.zoneTtl == w.zoneTtl &&
        (|| x.dsTtl > w.dsTtl
         || (x.dsTtl == w.dsTtl &&
             (|| Rank(x.phase) < Rank(w.phase)
              || (Rank(x.phase) == Rank(w.phase) && Slots(x) < Slots(w))))))
  }

  const PHASE_WEIGHT := 100
  const ZONE_WEIGHT := (TTL_LIMIT + 1) * PHASE_WEIGHT

  /** The same order as one number. */
  function Measure(w: Workflow): int {
    (TTL_LIMIT - w.zoneTtl) * ZONE_WEIGHT + (TTL_LIMIT - w.dsTtl) * PHASE_WEIGHT + Rank(w.phase) * 5 + Slots(w)
  }

  lemma MeasureShrinks(cfg: Config, x: Workflow, w: Workflow)
    requires Sound(cfg, x) && Sound(cfg, w) && Smaller(x, w)
    ensures 0 <= Measure(x) < Measure(w)
  {
    assert Slots(x) <= 4 && Slots(w) <= 4;
    if x.zoneTtl > w.zoneTtl {
      assert (TTL_LIMIT - w.zoneTtl) * ZONE_WEIGHT >= (TTL_LIMIT - x.zoneTtl) * ZONE_WEIGHT + ZONE_WEIGHT;
    }
  }

  // ---- plans ---------------------------------------------------------------------------

  /** Once recorded, an id or a transaction stays; attempt markers are never touched. */
  predicate Persists(w: Workflow, x: Workflow) {
    && x.Id() == w.Id() && x.zoneId == w.zoneId && x.discoveredAt == w.discoveredAt
    && x.newKeyTriedAt == w.newKeyTriedAt && x.newZskTriedAt == w.newZskTriedAt
    && x.reg.attemptedAt == w.reg.attemptedAt
    && (w.oldKey != 0 ==> x.oldKey == w.oldKey)
    && (PastPublication(w.phase) ==> SameIds(w, x))
    && (!w.reg.ctid.NoCtid? ==> x.reg.ctid == w.reg.ctid)
    && (!w.parentMode.NoMode? ==> x.parentMode == w.parentMode)
    && (w.kind.Enroll? ==> x.parentMode == w.parentMode)
  }

  /** A successful, unblocked step from w to x. */
  predicate Successor(cfg: Config, now: Time, w: Workflow, x: Workflow) {
    && w.Active() && !w.phase.Blocked? && Persists(w, x) && Sound(cfg, x) && Smaller(x, w)
    && (x.Active() ==> !x.phase.Blocked? && x.nextAt >= now && x.disposition == w.disposition && x.completedAt == w.completedAt)
    && (!x.Active() ==> w.kind.Enroll? && w.phase.EnrollDiscovered? && x.disposition.Ineligible?)
  }

  predicate Due(w: Workflow, now: Time) { w.nextAt <= now }

  predicate MayFinish(w: Workflow) {
    w.phase.DeleteOld? || w.phase.EnrollDiscovered? || w.phase.EnrollWaitParent?
  }

  /** The key switches a workflow may ask for: its own new signer on, its old key off. */
  predicate MaySwitch(w: Workflow, key: int, on: bool) {
    || (on && w.phase.ActivateNew? && key == SignerId(w))
    || (!on && w.phase.DeactivateOld? && key == w.oldKey)
  }

  /** Every plan has one of these forms: at most one external write, marked before it is
      made if repeating it could do harm. */
  predicate Legit(cfg: Config, now: Time, w: Workflow, todo: Todo) {
    || todo == Rest || todo == Fail(w) || todo == Stop(w)
    || (todo == Finish(w) && MayFinish(w))
    || Moves(cfg, now, w, todo)
    || AsksCreate(w, now, todo)
    || (todo == Persist(MarkReplace(w), Update(Requested(w, now), w.newKey), Fail(w))
        && w.phase.ParentRemove? && !w.reg.ctid.NoCtid? && w.reg.attemptedAt == UNSET)
    || (todo == Persist(MarkEnroll(w), Update(Requested(w, now), w.newKey), Fail(w))
        && w.phase.EnrollParentAdd? && !w.reg.ctid.NoCtid? && w.reg.attemptedAt == UNSET)
    || (todo.Set? && todo.w == w && MaySwitch(w, todo.key, todo.on) && Moves(cfg, now, w, todo.ok))
    || (todo == Delete(w, w.oldKey, Finish(w)) && w.phase.DeleteOld?)
  }

  predicate OpenSlot(w: Workflow, zskSlot: bool) {
    && w.phase.Prepublish? && w.oldKey != 0
    && (if zskSlot then w.newZsk == 0 && w.newKey != 0 && w.kind.Split? else w.newKey == 0)
  }

  predicate AsksCreate(w: Workflow, now: Time, todo: Todo) {
    && todo.Persist? && todo.ok.Create?
    && var c := todo.ok;
    && todo == Persist(MarkCreate(w, c.zskSlot), Create(Marked(w, c.zskSlot, now), c.role, c.algorithm, c.active, c.zskSlot), Fail(w))
    && OpenSlot(w, c.zskSlot) && Marker(w, c.zskSlot) == UNSET
    && (w.kind.Split? ==> !w.parentMode.NoMode?)
  }

  predicate Moves(cfg: Config, now: Time, w: Workflow, todo: Todo) {
    todo.Persist? && todo.edit.Put? && todo == Persist(Put(todo.edit.x), Rest, Fail(w)) && Successor(cfg, now, w, todo.edit.x)
  }

  predicate PositiveIds(keys: seq<Key>) { forall k <- keys :: k.id > 0 }

  predicate Ready(cfg: Config, now: Time, w: Workflow) { ValidConfig(cfg) && now > 0 && Sound(cfg, w) && Due(w, now) }

  lemma AdoptOrCreateLegit(cfg: Config, now: Time, w: Workflow, keys: seq<Key>, role: KeyType,
                           algorithm: string, active: bool, zskSlot: bool)
    requires Ready(cfg, now, w) && PositiveIds(keys) && OpenSlot(w, zskSlot)
    requires w.kind.Split? ==> !w.parentMode.NoMode?
    ensures Legit(cfg, now, w, AdoptOrCreate(cfg, now, w, keys, role, algorithm, active, zskSlot))
  {
    var found := Adoptable(cfg, w, keys, role, algorithm, active, zskSlot);
    var todo := AdoptOrCreate(cfg, now, w, keys, role, algorithm, active, zskSlot);
    if found.Some? && |found.value| == 1 {
      FilledLegit(cfg, now, w, zskSlot, found.value[0].id);
    } else if found.Some? && |found.value| == 0 && Marker(w, zskSlot) == UNSET {
      assert todo == Persist(MarkCreate(w, zskSlot), Create(Marked(w, zskSlot, now), role, algorithm, active, zskSlot), Fail(w));
    }
  }

  lemma FilledLegit(cfg: Config, now: Time, w: Workflow, zskSlot: bool, id: int)
    requires Ready(cfg, now, w) && OpenSlot(w, zskSlot) && id > 0
    ensures Moves(cfg, now, w, Go(w, Filled(w, now, zskSlot, id)))
  {}

  /** The moves of prepublish that create nothing. */
  lemma PrepublishMoves(cfg: Config, now: Time, w: Workflow)
    requires Ready(cfg, now, w) && w.phase.Prepublish?
    ensures forall id :: w.oldKey == 0 && id > 0 ==> Moves(cfg, now, w, Go(w, Moved(w, now, Prepublish, now).(oldKey := id)))
    ensures Moves(cfg, now, w, Go(w, Moved(w, now, WaitPublish, now).(evidenceAt := UNSET)))
  {}

  lemma ModeMoves(cfg: Config, now: Time, w: Workflow, mode: ParentMode)
    requires Ready(cfg, now, w) && w.phase.Prepublish? && w.kind.Split? && w.parentMode.NoMode? && !mode.NoMode?
    ensures Moves(cfg, now, w, Go(w, Moved(w, now, Prepublish, now).(parentMode := mode)))
  {}

  lemma ChooseLegit(cfg: Config, now: Time, w: Workflow, ev: Evidence)
    requires Ready(cfg, now, w) && PositiveIds(ev.keys) && w.phase.Prepublish? && w.oldKey == 0
    ensures Legit(cfg, now, w, PrepublishPlan(cfg, now, w, ev))
  {
    var typ := if w.kind.Split? then CskType else RoleOf(w.kind);
    var prior := ExactlyOneActive(ev.keys, typ);
    if prior.Some? {
      assert prior.value in ActiveOf(ev.keys, typ);
      PrepublishMoves(cfg, now, w);
    }
  }

  lemma PrepublishLegit(cfg: Config, now: Time, w: Workflow, ev: Evidence)
    requires Ready(cfg, now, w) && PositiveIds(ev.keys) && w.phase.Prepublish?
    ensures Legit(cfg, now, w, PrepublishPlan(cfg, now, w, ev))
  {
    var prior := ById(ev.keys, w.oldKey);
    if w.oldKey == 0 {
      ChooseLegit(cfg, now, w, ev);
    } else if prior.Some? {
      var algorithm := if prior.value.algorithm == "" then cfg.algorithm else prior.value.algorithm;
      if w.kind.Split? && w.parentMode.NoMode? {
        ModeMoves(cfg, now, w, Existing);
        ModeMoves(cfg, now, w, Initial);
      } else if w.newKey == 0 {
        AdoptOrCreateLegit(cfg, now, w, ev.keys, RoleOf(w.kind), algorithm, !w.kind.ZSK?, false);
      } else if w.kind.Split? && w.newZsk == 0 {
        AdoptOrCreateLegit(cfg, now, w, ev.keys, ZskType, algorithm, false, true);
      } else {
        PrepublishMoves(cfg, now, w);
      }
    }
  }

  lemma AfterCreateLegit(cfg: Config, now: Time, w: Workflow, role: KeyType, algorithm: string, active: bool,
                         zskSlot: bool, reply: Option<Key>)
    requires Ready(cfg, now, w) && OpenSlot(w, zskSlot)
    ensures Legit(cfg, now, w, AfterCreate(cfg, now, w, role, algorithm, active, zskSlot, reply))
  {
    if reply.Some? && GoodReply(cfg, w, reply.value, role, algorithm, active, zskSlot) {
      FilledLegit(cfg, now, w, zskSlot, reply.value.id);
    }
  }

  lemma WaitPublishLegit(cfg: Config, now: Time, w: Workflow, ev: Evidence)
    requires Ready(cfg, now, w) && w.phase.WaitPublish?
    ensures Legit(cfg, now, w, WaitPublishPlan(cfg, now, w, ev))
  {
    PublishSafety.WaitPublishShape(cfg, now, w, ev);
    var todo := WaitPublishPlan(cfg, now, w, ev);
    if todo != Stop(w) && todo != Fail(w) {
      InventoryIds(ev.keys, w);
      var seen := if InitialSplit(w) then ev.authDnskey else ev.dnskey;
      PublicationMoves(cfg, now, w, seen.value.ttl);
    }
  }

  lemma InventoryIds(keys: seq<Key>, w: Workflow)
    requires PrepublishInventory(keys, w)
    ensures RecordedIds(w)
  {}

  lemma PublicationMoves(cfg: Config, now: Time, w: Workflow, ttl: Ttl)
    requires Ready(cfg, now, w) && w.phase.WaitPublish? && RecordedIds(w)
    ensures Moves(cfg, now, w, Go(w, PublishSafety.AfterPublication(cfg, now, w, ttl)))
  {}

  lemma ActivateNewLegit(cfg: Config, now: Time, w: Workflow, ev: Evidence)
    requires Ready(cfg, now, w) && w.phase.ActivateNew?
    ensures Legit(cfg, now, w, ActivateNewPlan(now, w, ev))
  {}

  lemma SigningMoves(cfg: Config, now: Time, w: Workflow, ttl: Ttl)
    requires Ready(cfg, now, w) && w.phase.WaitNewSignature?
    ensures w.zoneTtl == 0 && ttl >= DAY ==> Moves(cfg, now, w, Go(w, Moved(w, now, WaitNewSignature, now).(zoneTtl := ttl)))
    ensures w.zoneTtl != 0 ==> Moves(cfg, now, w, Proceed(now, w))
    ensures w.zoneTtl != 0 && w.signerAt == UNSET && w.evidenceAt == UNSET ==>
              Moves(cfg, now, w, Go(w, Moved(w, now, WaitNewSignature, now + w.zoneTtl + cfg.margin).(evidenceAt := now)))
  {}

  lemma RestartMoves(cfg: Config, now: Time, w: Workflow, ttl: Ttl)
    requires Ready(cfg, now, w) && (w.phase.WaitNewSignature? || w.phase.DeactivateOld?) && w.signerAt != UNSET
    requires ttl > w.zoneTtl && ttl >= DAY
    ensures Moves(cfg, now, w, RestartSigner(cfg, now, w, ttl))
  {}

  lemma SplitWaitLegit(cfg: Config, now: Time, w: Workflow, ev: Evidence)
    requires Ready(cfg, now, w) && w.phase.WaitNewSignature? && w.kind.Split? && w.zoneTtl != 0
    ensures Legit(cfg, now, w, SplitWait(cfg, now, w, ev))
  {
    SigningMoves(cfg, now, w, DAY);
    var current := SignerEvidence(cfg, w, ev);
    if w.signerAt != UNSET && current.Some? && current.value > w.zoneTtl {
      RestartMoves(cfg, now, w, current.value);
    }
  }

  lemma WaitNewSignatureLegit(cfg: Config, now: Time, w: Workflow, ev: Evidence)
    requires Ready(cfg, now, w) && w.phase.WaitNewSignature?
    ensures Legit(cfg, now, w, WaitNewSignaturePlan(cfg, now, w, ev))
  {
    SigningMoves(cfg, now, w, if ev.zoneTtls.Some? then MaxTtl(ev.zoneTtls.value) else DAY);
    if w.kind.Split? && w.zoneTtl != 0 {
      SplitWaitLegit(cfg, now, w, ev);
    }
  }

  lemma DeactivateOldLegit(cfg: Config, now: Time, w: Workflow, ev: Evidence)
    requires Ready(cfg, now, w) && w.phase.DeactivateOld?
    ensures Legit(cfg, now, w, DeactivateOldPlan(cfg, now, w, ev))
  {
    DeactivateLegit(cfg, now, w, ev);
    var current := SignerEvidence(cfg, w, ev);
    if w.signerAt != UNSET && current.Some? && current.value > w.zoneTtl {
      RestartMoves(cfg, now, w, current.value);
    }
  }

  lemma DeactivateLegit(cfg: Config, now: Time, w: Workflow, ev: Evidence)
    requires Ready(cfg, now, w) && w.phase.DeactivateOld?
    ensures Legit(cfg, now, w, Deactivate(cfg, now, w, ev))
  {
    var todo := Deactivate(cfg, now, w, ev);
    var prior := ById(ev.keys, w.oldKey);
    var next := Go(w, if w.kind.KSK? then Moved(w, now, DeleteOld, now)
                      else Moved(w, now, WaitRetire, now + w.zoneTtl + cfg.margin));
    RetiringMoves(cfg, now, w);
    if todo.Set? {
      assert todo == Set(w, w.oldKey, false, next) && MaySwitch(w, w.oldKey, false);
    } else if todo != Fail(w) && todo != Stop(w) && todo != next {
      GrownZone(cfg, now, w, MaxTtl(ev.zoneTtls.value));
    }
  }

  lemma RetiringMoves(cfg: Config, now: Time, w: Workflow)
    requires Ready(cfg, now, w) && w.phase.DeactivateOld?
    ensures Moves(cfg, now, w, Go(w, if w.kind.KSK? then Moved(w, now, DeleteOld, now)
                                     else Moved(w, now, WaitRetire, now + w.zoneTtl + cfg.margin)))
  {}

  lemma GrownZone(cfg: Config, now: Time, w: Workflow, ttl: Ttl)
    requires Ready(cfg, now, w) && w.phase.DeactivateOld? && ttl > w.zoneTtl && !w.kind.KSK? && ttl >= DAY
    ensures Moves(cfg, now, w, Go(w, Moved(w, now, DeactivateOld, now + ttl + cfg.margin).(zoneTtl := ttl, evidenceAt := now)))
  {}

  lemma ParentReplaceLegit(cfg: Config, now: Time, w: Workflow, ev: Evidence)
    requires Ready(cfg, now, w) && w.phase.ParentRemove?
    ensures Legit(cfg, now, w, ParentReplacePlan(now, w, ev))
  {}

  lemma AfterUpdateLegit(cfg: Config, now: Time, w: Workflow, reply: Option<Job>)
    requires Ready(cfg, now, w) && (w.phase.ParentRemove? || w.phase.EnrollParentAdd?) && !w.reg.ctid.NoCtid?
    ensures Legit(cfg, now, w, AfterUpdate(now, w, reply))
  {}

  lemma WaitParentReplaceLegit(cfg: Config, now: Time, w: Workflow, ev: Evidence)
    requires Ready(cfg, now, w) && w.phase.WaitParentRemove?
    ensures Legit(cfg, now, w, WaitParentReplacePlan(cfg, now, w, ev))
  {
    ParentSafety.WaitParentReplaceShape(cfg, now, w, ev);
    ParentMoves(cfg, now, w);
  }

  lemma ParentMoves(cfg: Config, now: Time, w: Workflow)
    requires Ready(cfg, now, w) && (w.phase.WaitParentRemove? || w.phase.EnrollWaitParent?)
    ensures AwaitsJob(w) ==> Moves(cfg, now, w, Go(w, ParentSafety.JobSettled(now, w)))
    ensures forall ttl: Ttl :: w.evidenceAt == UNSET || ttl > w.dsTtl ==> Moves(cfg, now, w, Go(w, ParentSafety.DsSeen(cfg, now, w, ttl)))
    ensures w.phase.WaitParentRemove? && w.evidenceAt != UNSET ==> Moves(cfg, now, w, Go(w, ParentSafety.ParentDone(now, w)))
  {}

  lemma WaitRetireLegit(cfg: Config, now: Time, w: Workflow, ev: Evidence)
    requires Ready(cfg, now, w) && w.phase.WaitRetire?
    ensures Legit(cfg, now, w, WaitRetirePlan(now, w, ev))
  {}

  lemma DeleteOldLegit(cfg: Config, now: Time, w: Workflow, ev: Evidence)
    requires Ready(cfg, now, w) && w.phase.DeleteOld?
    ensures Legit(cfg, now, w, DeleteOldPlan(w, ev))
  {}

  lemma EnrollDiscoveredLegit(cfg: Config, now: Time, zone: Zone, w: Workflow, ev: Evidence)
    requires Ready(cfg, now, w) && PositiveIds(ev.keys) && w.phase.EnrollDiscovered?
    ensures Legit(cfg, now, w, EnrollDiscoveredPlan(cfg, now, zone, w, ev))
  {
    if Unclassified(w) {
      ClassifyLegit(cfg, now, w, ev);
    } else {
      assert Moves(cfg, now, w, Go(w, Moved(w, now, EnrollWaitPublish, now).(evidenceAt := UNSET, dnskeyTtl := 0)));
    }
  }

  lemma ClassifyLegit(cfg: Config, now: Time, w: Workflow, ev: Evidence)
    requires Ready(cfg, now, w) && PositiveIds(ev.keys) && w.phase.EnrollDiscovered? && Unclassified(w)
    ensures Legit(cfg, now, w, ClassifyEnrollment(cfg, now, w, ev))
  {
    var found := EnrollmentInventory(cfg, ev.keys, 0, 0, NoFingerprint);
    if KeyScheme(ev.keys).CskScheme? {
      RejectedMoves(cfg, now, w);
    } else if found.Some? {
      assert found.value.0 in LiveKeys(ev.keys) && found.value.1 in LiveKeys(ev.keys);
      ClassifiedMoves(cfg, now, w, found.value.0.id, found.value.1.id, found.value.2);
    }
  }

  lemma RejectedMoves(cfg: Config, now: Time, w: Workflow)
    requires Ready(cfg, now, w) && w.phase.EnrollDiscovered?
    ensures Moves(cfg, now, w, Persist(Put(w.(phase := Idle, completedAt := now, nextAt := UNSET, disposition := Ineligible)), Rest, Fail(w)))
  {}

  lemma ClassifiedMoves(cfg: Config, now: Time, w: Workflow, ksk: int, zsk: int, keyset: Fingerprint)
    requires Ready(cfg, now, w) && w.phase.EnrollDiscovered? && Unclassified(w) && ksk > 0 && zsk > 0
    requires keyset != NoFingerprint
    ensures Moves(cfg, now, w, Go(w, Moved(w, now, EnrollDiscovered, now + cfg.discoveryGrace)
                                       .(newKey := ksk, newZsk := zsk, keyset := keyset, evidenceAt := UNSET, dnskeyTtl := 0)))
  {}

  lemma PublishedMoves(cfg: Config, now: Time, w: Workflow, ttl: Ttl)
    requires Ready(cfg, now, w) && w.phase.EnrollWaitPublish?
    ensures w.evidenceAt == UNSET ==>
              Moves(cfg, now, w, Go(w, Moved(w, now, EnrollWaitPublish, now + Max(ttl, cfg.minDnskeyWait) + cfg.margin)
                                         .(evidenceAt := now, dnskeyTtl := ttl)))
    ensures w.evidenceAt != UNSET ==> Moves(cfg, now, w, Go(w, Moved(w, now, EnrollParentAdd, now).(evidenceAt := UNSET)))
  {}

  lemma EnrollWaitPublishLegit(cfg: Config, now: Time, zone: Zone, w: Workflow, ev: Evidence)
    requires Ready(cfg, now, w) && w.phase.EnrollWaitPublish?
    ensures Legit(cfg, now, w, EnrollWaitPublishPlan(cfg, now, zone, w, ev))
  {
    PublishedMoves(cfg, now, w, if ev.authDnskey.Some? then ev.authDnskey.value.ttl else 0);
  }

  lemma EnrollParentAddLegit(cfg: Config, now: Time, zone: Zone, w: Workflow, ev: Evidence, armedAt: Time)
    requires Ready(cfg, now, w) && w.phase.EnrollParentAdd?
    ensures Legit(cfg, now, w, EnrollParentAddPlan(cfg, now, zone, w, ev, armedAt))
  {}

  lemma EnrollWaitParentLegit(cfg: Config, now: Time, zone: Zone, w: Workflow, ev: Evidence)
    requires Ready(cfg, now, w) && w.phase.EnrollWaitParent?
    ensures Legit(cfg, now, w, EnrollWaitParentPlan(cfg, now, zone, w, ev))
  {
    ParentMoves(cfg, now, w);
  }

  /** Whatever the evidence, a due workflow gets a legitimate plan. */
  lemma AdvanceLegit(cfg: Config, now: Time, zone: Zone, w: Workflow, ev: Evidence, armedAt: Time)
    requires ValidConfig(cfg) && now > 0 && Sound(cfg, w) && PositiveIds(ev.keys)
    ensures Legit(cfg, now, w, Advance(cfg, now, zone, w, ev, armedAt))
    ensures Advance(cfg, now, zone, w, ev, armedAt) != Rest ==> Due(w, now)
  {
    if Due(w, now) {
      match w.phase
      case Prepublish => PrepublishLegit(cfg, now, w, ev);
      case WaitPublish => WaitPublishLegit(cfg, now, w, ev);
      case ActivateNew => ActivateNewLegit(cfg, now, w, ev);
      case WaitNewSignature => WaitNewSignatureLegit(cfg, now, w, ev);
      case DeactivateOld => DeactivateOldLegit(cfg, now, w, ev);
      case ParentRemove => ParentReplaceLegit(cfg, now, w, ev);
      case WaitParentRemove => WaitParentReplaceLegit(cfg, now, w, ev);
      case WaitRetire => WaitRetireLegit(cfg, now, w, ev);
      case DeleteOld => DeleteOldLegit(cfg, now, w, ev);
      case EnrollDiscovered => EnrollDiscoveredLegit(cfg, now, zone, w, ev);
      case EnrollWaitPublish => EnrollWaitPublishLegit(cfg, now, zone, w, ev);
      case EnrollParentAdd => EnrollParentAddLegit(cfg, now, zone, w, ev, armedAt);
      case EnrollWaitParent => EnrollWaitParentLegit(cfg, now, zone, w, ev);
      case Blocked =>
      case Idle =>
    }
  }
}
