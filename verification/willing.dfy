/** What a handler needs: for every phase the exact evidence with which its workflow moves on.
    All of it can be checked before the call. */
module Willingness {
  import opened Model
  import opened Inventory
  import opened Edits
  import opened Plans
  import opened Legitimacy
  import opened ProofsFirst

  /** A slot can be filled: the read-back is clear, and either shows the one key that fits or
      leaves room for the one attempt. */
  predicate SlotOpen(cfg: Config, w: Workflow, keys: seq<Key>, role: KeyType, active: bool, zskSlot: bool)
    requires ById(keys, w.oldKey).Some?
  {
    var prior := ById(keys, w.oldKey).value;
    var found := Adoptable(cfg, w, keys, role, if prior.algorithm == "" then cfg.algorithm else prior.algorithm, active, zskSlot);
    found.Some? && (|found.value| == 1 || (found.value == [] && Marker(w, zskSlot) == UNSET))
  }

  predicate PrepublishSuffices(cfg: Config, w: Workflow, ev: Evidence) {
    if w.oldKey == 0 then ExactlyOneActive(ev.keys, if w.kind.Split? then CskType else RoleOf(w.kind)).Some?
    else
      && ById(ev.keys, w.oldKey).Some?
      && if w.kind.Split? && w.parentMode.NoMode? then
           ById(ev.keys, w.oldKey).value.data.Some? && (RegistrarHolds(ev, w.oldKey) || RegistrarEmpty(ev))
         else if w.newKey == 0 then SlotOpen(cfg, w, ev.keys, RoleOf(w.kind), !w.kind.ZSK?, false)
         else w.kind.Split? && w.newZsk == 0 ==> SlotOpen(cfg, w, ev.keys, ZskType, false, true)
  }

  predicate WaitPublishSuffices(w: Workflow, ev: Evidence) {
    && PrepublishInventory(ev.keys, w) && PublicationSeen(w, ev)
    && (w.kind.KSK? || w.kind.Split? ==> KeySignatureSeen(w, ev, w.oldKey) && KeySignatureSeen(w, ev, w.newKey))
  }

  predicate WaitNewSignatureSuffices(cfg: Config, now: Time, w: Workflow, ev: Evidence) {
    && ById(ev.keys, w.oldKey).Some? && ById(ev.keys, w.newKey).Some?
    && Live(ById(ev.keys, SignerId(w))) && SignerId(w) in ev.zoneSigned
    && (w.zoneTtl == 0 ==> ev.zoneTtls.Some?)
    && (w.zoneTtl != 0 && w.kind.Split? ==>
          if w.signerAt == UNSET then w.oldKey in ev.zoneSigned
          else now < w.signerAt + w.zoneTtl + cfg.margin || SignerEvidence(cfg, w, ev).Some?)
  }

  predicate SwitchOffSuffices(w: Workflow, ev: Evidence) {
    && ById(ev.keys, w.oldKey).Some? && Live(ById(ev.keys, w.newKey)) && Shows(ev.dnskey, PublishedIds(ev.keys))
    && (w.kind.ZSK? ==> w.newKey in ev.zoneSigned)
    && (!w.kind.ZSK? ==> w.newKey in ev.dnskeySigned && w.newKey in ev.dsExact)
    && (w.kind.Split? ==> Live(ById(ev.keys, w.newZsk)) && w.newZsk in ev.zoneSigned)
    && (!w.kind.KSK? ==> ev.zoneTtls.Some?)
  }

  predicate DeactivateOldSuffices(cfg: Config, w: Workflow, ev: Evidence) {
    var current := SignerEvidence(cfg, w, ev);
    && (w.kind.Split? ==> SplitInventory(ev.keys, w, true) || SplitInventory(ev.keys, w, false))
    && if w.kind.Split? && w.signerAt != UNSET && SplitInventory(ev.keys, w, true)
       then current.Some? && (current.value > w.zoneTtl || SwitchOffSuffices(w, ev))
       else SwitchOffSuffices(w, ev)
  }

  predicate ParentReplaceSuffices(w: Workflow, ev: Evidence) {
    w.reg.ctid.NoCtid?
    || (&& PrepublishInventory(ev.keys, w) && PublicationSeen(w, ev) && KeySignatureSeen(w, ev, w.newKey)
        && (w.kind.Split? ==> w.oldKey in (if InitialSplit(w) then ev.authZoneSigned else ev.zoneSigned))
        && (RegistrarHolds(ev, w.newKey)
            || ((if InitialSplit(w) then RegistrarEmpty(ev) else RegistrarHolds(ev, w.oldKey)) && w.reg.attemptedAt == UNSET)))
  }

  /** The registrar's job is done, or its own material shows that it was. */
  predicate JobDone(ev: Evidence, k: Key) {
    ev.job == JobReport(Succeeded) || (ev.job.JobUnavailable? && k.data.Some? && RegistrarHolds(ev, k.id))
  }

  predicate WaitParentReplaceSuffices(w: Workflow, ev: Evidence) {
    && (w.kind.Split? ==> PrepublishInventory(ev.keys, w))
    && ById(ev.keys, w.oldKey).Some? && ById(ev.keys, w.newKey).Some?
    && if AwaitsJob(w) then JobDone(ev, ById(ev.keys, w.newKey).value)
       else
         && w.newKey in ev.authDs
         && (w.evidenceAt != UNSET ==>
               w.newKey in ev.dsExact && Live(ById(ev.keys, w.newKey))
               && Shows(ev.dnskey, PublishedIds(ev.keys)) && w.newKey in ev.dnskeySigned)
  }

  predicate DeleteOldSuffices(w: Workflow, ev: Evidence) {
    && RetirementProven(w, ev)
    && (w.kind.Split? ==>
          ById(ev.keys, w.newKey).value.data.Some?
          && Shows(ev.dnskey, {w.newKey, w.newZsk} + (if ById(ev.keys, w.oldKey).Some? then {w.oldKey} else {})))
    && (ById(ev.keys, w.oldKey).Some? ==> !ById(ev.keys, w.oldKey).value.active)
  }

  predicate EnrollDiscoveredSuffices(cfg: Config, zone: Zone, w: Workflow, ev: Evidence) {
    if Unclassified(w) then KeyScheme(ev.keys).CskScheme? || EnrollmentInventory(cfg, ev.keys, 0, 0, NoFingerprint).Some?
    else
      && FrozenPair(cfg, zone, w, ev) && ev.remote.Some?
      && var k := EnrollmentInventory(cfg, ev.keys, w.newKey, w.newZsk, w.keyset).value.0.id;
         if ev.remote.value.enabled then RegistrarHolds(ev, k) && PairSeen(cfg, w, ev, true) && ParentServes(ev, k)
         else ev.remote.value.material == [] && ev.noDs && ev.delegation
  }

  predicate EnrollParentAddSuffices(cfg: Config, zone: Zone, w: Workflow, ev: Evidence, armedAt: Time) {
    && (w.reg.attemptedAt != UNSET || armedAt != UNSET)
    && FrozenPair(cfg, zone, w, ev) && PairSeen(cfg, w, ev, false) && ev.noDs
    && var k := EnrollmentInventory(cfg, ev.keys, w.newKey, w.newZsk, w.keyset).value.0;
    && k.data.Some? && (w.reg.payload.Some? ==> w.reg.payload == k.data)
    && (RegistrarHolds(ev, k.id)
        || (RegistrarEmpty(ev) && (w.reg.ctid.NoCtid? || (w.reg.payload.Some? && w.reg.attemptedAt == UNSET))))
  }

  predicate EnrollWaitParentSuffices(cfg: Config, zone: Zone, w: Workflow, ev: Evidence) {
    && FrozenPair(cfg, zone, w, ev)
    && var k := EnrollmentInventory(cfg, ev.keys, w.newKey, w.newZsk, w.keyset).value.0;
       if AwaitsJob(w) then JobDone(ev, k)
       else
         && k.id in ev.authDs
         && (w.evidenceAt == UNSET || ev.authDs[k.id] > w.dsTtl
             || (PairSeen(cfg, w, ev, true) && k.id in ev.dsExact && RegistrarHolds(ev, k.id)))
  }

  /** What the handler of a due workflow needs to move it on. */
  predicate Suffices(cfg: Config, now: Time, zone: Zone, w: Workflow, ev: Evidence, armedAt: Time) {
    match w.phase
    case Prepublish => PrepublishSuffices(cfg, w, ev)
    case WaitPublish => WaitPublishSuffices(w, ev)
    case ActivateNew =>
      ById(ev.keys, SignerId(w)).Some? && (w.kind.Split? ==> PrepublishInventory(ev.keys, w) || SplitInventory(ev.keys, w, true))
    case WaitNewSignature => WaitNewSignatureSuffices(cfg, now, w, ev)
    case DeactivateOld => DeactivateOldSuffices(cfg, w, ev)
    case ParentRemove => ParentReplaceSuffices(w, ev)
    case WaitParentRemove => WaitParentReplaceSuffices(w, ev)
    case WaitRetire =>
      && ById(ev.keys, w.oldKey).Some? && ById(ev.keys, w.newKey).Some?
      && ById(ev.keys, SignerId(w)).Some? && SignerId(w) in ev.zoneSigned
    case DeleteOld => DeleteOldSuffices(w, ev)
    case EnrollDiscovered => EnrollDiscoveredSuffices(cfg, zone, w, ev)
    case EnrollWaitPublish => FrozenPair(cfg, zone, w, ev) && PairSeen(cfg, w, ev, false)
    case EnrollParentAdd => EnrollParentAddSuffices(cfg, zone, w, ev, armedAt)
    case EnrollWaitParent => EnrollWaitParentSuffices(cfg, zone, w, ev)
    case Idle | Blocked => false
  }

  predicate MovesOn(w: Workflow, todo: Todo) { todo !in {Rest, Fail(w), Stop(w)} }

  lemma SlotExactly(cfg: Config, now: Time, w: Workflow, ev: Evidence, zskSlot: bool)
    requires w.phase.Prepublish? && w.oldKey != 0 && ById(ev.keys, w.oldKey).Some?
    requires if zskSlot then w.kind.Split? && w.newKey != 0 && w.newZsk == 0 else w.newKey == 0
    requires w.kind.Split? ==> !w.parentMode.NoMode?
    ensures MovesOn(w, PrepublishPlan(cfg, now, w, ev))
            <==> SlotOpen(cfg, w, ev.keys, if zskSlot then ZskType else RoleOf(w.kind), !zskSlot && !w.kind.ZSK?, zskSlot)
  {
    var prior := ById(ev.keys, w.oldKey).value;
    var algorithm := if prior.algorithm == "" then cfg.algorithm else prior.algorithm;
    assert PrepublishPlan(cfg, now, w, ev)
        == AdoptOrCreate(cfg, now, w, ev.keys, if zskSlot then ZskType else RoleOf(w.kind), algorithm,
                         !zskSlot && !w.kind.ZSK?, zskSlot);
  }

  lemma PrepublishExactly(cfg: Config, now: Time, w: Workflow, ev: Evidence)
    requires w.phase.Prepublish?
    ensures MovesOn(w, PrepublishPlan(cfg, now, w, ev)) <==> PrepublishSuffices(cfg, w, ev)
  {
    if w.oldKey != 0 && ById(ev.keys, w.oldKey).Some? && !(w.kind.Split? && w.parentMode.NoMode?) {
      if w.newKey == 0 {
        SlotExactly(cfg, now, w, ev, false);
      } else if w.kind.Split? && w.newZsk == 0 {
        SlotExactly(cfg, now, w, ev, true);
      }
    }
  }

  lemma PublishExactly(cfg: Config, now: Time, zone: Zone, w: Workflow, ev: Evidence)
    ensures MovesOn(w, WaitPublishPlan(cfg, now, w, ev)) <==> WaitPublishSuffices(w, ev)
    ensures MovesOn(w, EnrollWaitPublishPlan(cfg, now, zone, w, ev)) <==> FrozenPair(cfg, zone, w, ev) && PairSeen(cfg, w, ev, false)
  {}

  lemma SigningExactly(cfg: Config, now: Time, w: Workflow, ev: Evidence)
    ensures MovesOn(w, WaitNewSignaturePlan(cfg, now, w, ev)) <==> WaitNewSignatureSuffices(cfg, now, w, ev)
  {}

  lemma DeactivateExactly(cfg: Config, now: Time, w: Workflow, ev: Evidence)
    ensures MovesOn(w, Deactivate(cfg, now, w, ev)) <==> SwitchOffSuffices(w, ev)
    ensures MovesOn(w, DeactivateOldPlan(cfg, now, w, ev)) <==> DeactivateOldSuffices(cfg, w, ev)
  {}

  lemma ReplaceExactly(cfg: Config, now: Time, w: Workflow, ev: Evidence)
    ensures MovesOn(w, ParentReplacePlan(now, w, ev)) <==> ParentReplaceSuffices(w, ev)
  {}

  lemma ParentWaitExactly(cfg: Config, now: Time, w: Workflow, ev: Evidence)
    ensures MovesOn(w, WaitParentReplacePlan(cfg, now, w, ev)) <==> WaitParentReplaceSuffices(w, ev)
  {}

  lemma DeleteExactly(w: Workflow, ev: Evidence)
    requires !w.kind.Enroll?
    ensures MovesOn(w, DeleteOldPlan(w, ev)) <==> DeleteOldSuffices(w, ev)
  {}

  lemma DiscoveryExactly(cfg: Config, now: Time, zone: Zone, w: Workflow, ev: Evidence)
    ensures MovesOn(w, EnrollDiscoveredPlan(cfg, now, zone, w, ev)) <==> EnrollDiscoveredSuffices(cfg, zone, w, ev)
  {}

  lemma AddExactly(cfg: Config, now: Time, zone: Zone, w: Workflow, ev: Evidence, armedAt: Time)
    ensures MovesOn(w, EnrollParentAddPlan(cfg, now, zone, w, ev, armedAt)) <==> EnrollParentAddSuffices(cfg, zone, w, ev, armedAt)
  {}

  lemma EnrollParentExactly(cfg: Config, now: Time, zone: Zone, w: Workflow, ev: Evidence)
    ensures MovesOn(w, EnrollWaitParentPlan(cfg, now, zone, w, ev)) <==> EnrollWaitParentSuffices(cfg, zone, w, ev)
  {}

  /** The handler of a due workflow neither idles nor fails nor blocks exactly if its evidence
      suffices. */
  lemma SufficesExactly(cfg: Config, now: Time, zone: Zone, w: Workflow, ev: Evidence, armedAt: Time)
    requires Sound(cfg, w) && (w.nextAt == UNSET || w.nextAt <= now)
    ensures MovesOn(w, Advance(cfg, now, zone, w, ev, armedAt)) <==> Suffices(cfg, now, zone, w, ev, armedAt)
  {
    match w.phase
    case Prepublish => PrepublishExactly(cfg, now, w, ev);
    case WaitPublish => PublishExactly(cfg, now, zone, w, ev);
    case ActivateNew =>
    case WaitNewSignature => SigningExactly(cfg, now, w, ev);
    case DeactivateOld => DeactivateExactly(cfg, now, w, ev);
    case ParentRemove => ReplaceExactly(cfg, now, w, ev);
    case WaitParentRemove => ParentWaitExactly(cfg, now, w, ev);
    case WaitRetire =>
    case DeleteOld => DeleteExactly(w, ev);
    case EnrollDiscovered => DiscoveryExactly(cfg, now, zone, w, ev);
    case EnrollWaitPublish => PublishExactly(cfg, now, zone, w, ev);
    case EnrollParentAdd => AddExactly(cfg, now, zone, w, ev, armedAt);
    case EnrollWaitParent => EnrollParentExactly(cfg, now, zone, w, ev);
    case Idle | Blocked =>
  }
}
