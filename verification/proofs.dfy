/** No step without proof: which evidence stands behind every forward move, every external
    write and every completion, whatever else the observer reports. */
module ProofsFirst {
  import opened Model
  import opened Inventory
  import opened Edits
  import opened Plans
  import opened Legitimacy

  /** A sound record, as every record of a run is. */
  predicate Usual(cfg: Config, now: Time, w: Workflow, ev: Evidence) {
    ValidConfig(cfg) && now > 0 && Sound(cfg, w) && PositiveIds(ev.keys)
  }

  /** The exact published key set was seen on every path the kind of workflow has to ask. */
  predicate PublicationSeen(w: Workflow, ev: Evidence) {
    Shows(if InitialSplit(w) then ev.authDnskey else ev.dnskey, PublishedIds(ev.keys))
  }

  predicate KeySignatureSeen(w: Workflow, ev: Evidence, key: int) {
    key in (if InitialSplit(w) then ev.authDnskeySigned else ev.dnskeySigned)
  }

  predicate ParentServes(ev: Evidence, key: int) { key in ev.authDs && key in ev.dsExact }

  /** The recorded pair of keys and the recorded zone, as enrollment froze them. */
  predicate FrozenPair(cfg: Config, zone: Zone, w: Workflow, ev: Evidence) {
    EnrollmentInventory(cfg, ev.keys, w.newKey, w.newZsk, w.keyset).Some? && zone.id == w.zoneId
  }

  predicate PairSeen(cfg: Config, w: Workflow, ev: Evidence, recursive: bool) {
    var found := EnrollmentInventory(cfg, ev.keys, w.newKey, w.newZsk, w.keyset);
    found.Some? && EnrollmentEvidence(ev, found.value.0.id, found.value.1.id, recursive)
  }

  predicate RegistrarHolds(ev: Evidence, key: int) { ev.remote.Some? && Holds(ev.remote.value, key) }

  predicate RegistrarEmpty(ev: Evidence) { ev.remote.Some? && Empty(ev.remote.value) && ev.noDs }

  /** What leaving a phase forwards rests on. */
  predicate ExitProven(cfg: Config, zone: Zone, w: Workflow, ev: Evidence) {
    match w.phase
    case Prepublish => w.oldKey != 0 && ById(ev.keys, w.oldKey).Some?
    case WaitPublish =>
      && PrepublishInventory(ev.keys, w) && PublicationSeen(w, ev) && w.evidenceAt != UNSET
      && (w.kind.KSK? || w.kind.Split? ==> KeySignatureSeen(w, ev, w.oldKey) && KeySignatureSeen(w, ev, w.newKey))
    case ParentRemove =>
      && PrepublishInventory(ev.keys, w) && PublicationSeen(w, ev) && KeySignatureSeen(w, ev, w.newKey)
      && RegistrarHolds(ev, w.newKey)
    case WaitParentRemove =>
      && (w.kind.Split? ==> PrepublishInventory(ev.keys, w)) && !AwaitsJob(w) && w.evidenceAt != UNSET
      && ParentServes(ev, w.newKey) && Live(ById(ev.keys, w.newKey))
      && Shows(ev.dnskey, PublishedIds(ev.keys)) && w.newKey in ev.dnskeySigned
    case ActivateNew => ById(ev.keys, SignerId(w)).Some? && ById(ev.keys, SignerId(w)).value.active
    case WaitNewSignature =>
      && SignerId(w) in ev.zoneSigned && Live(ById(ev.keys, SignerId(w))) && w.zoneTtl != 0
      && (w.kind.Split? && w.signerAt == UNSET ==> w.oldKey in ev.zoneSigned && w.evidenceAt != UNSET)
      && (w.kind.Split? && w.signerAt != UNSET ==>
            SignerEvidence(cfg, w, ev).Some? && SignerEvidence(cfg, w, ev).value <= w.zoneTtl)
    case DeactivateOld =>
      ReplacementProven(w, ev) && ById(ev.keys, w.oldKey).Some? && !ById(ev.keys, w.oldKey).value.active
    case WaitRetire => SignerId(w) in ev.zoneSigned
    case EnrollDiscovered =>
      && !Unclassified(w) && FrozenPair(cfg, zone, w, ev) && ev.noDs && ev.delegation
      && ev.remote.Some? && !ev.remote.value.enabled && ev.remote.value.material == []
    case EnrollWaitPublish => FrozenPair(cfg, zone, w, ev) && PairSeen(cfg, w, ev, false) && w.evidenceAt != UNSET
    case EnrollParentAdd =>
      FrozenPair(cfg, zone, w, ev) && PairSeen(cfg, w, ev, false) && ev.noDs
      && RegistrarHolds(ev, EnrollmentInventory(cfg, ev.keys, w.newKey, w.newZsk, w.keyset).value.0.id)
    case _ => false
  }

  /** The new keys carry the zone: they sign, they are the published set, the parent names the
      new one, and the recorded zone TTL still bounds the zone. */
  predicate ReplacementProven(w: Workflow, ev: Evidence) {
    && Live(ById(ev.keys, w.newKey)) && Shows(ev.dnskey, PublishedIds(ev.keys))
    && (w.kind.ZSK? ==> w.newKey in ev.zoneSigned)
    && (!w.kind.ZSK? ==> w.newKey in ev.dnskeySigned && w.newKey in ev.dsExact)
    && (w.kind.Split? ==> Live(ById(ev.keys, w.newZsk)) && w.newZsk in ev.zoneSigned)
    && (!w.kind.KSK? ==> ev.zoneTtls.Some? && MaxTtl(ev.zoneTtls.value) <= w.zoneTtl)
  }

  lemma RotationExits(cfg: Config, now: Time, zone: Zone, w: Workflow, ev: Evidence, armedAt: Time)
    requires !w.kind.Enroll?
    requires var todo := Advance(cfg, now, zone, w, ev, armedAt);
             todo.Persist? && todo.edit.Put? && todo.edit.x.phase != w.phase
    requires w.phase.DeactivateOld? ==> !Advance(cfg, now, zone, w, ev, armedAt).edit.x.phase.WaitNewSignature?
    requires w.phase.Prepublish? || w.phase.WaitPublish? || w.phase.ParentRemove? || w.phase.ActivateNew?
             || w.phase.WaitNewSignature? || w.phase.DeactivateOld? || w.phase.WaitRetire?
    ensures ExitProven(cfg, zone, w, ev)
  {}

  lemma ParentExit(cfg: Config, now: Time, zone: Zone, w: Workflow, ev: Evidence, armedAt: Time)
    requires w.phase.WaitParentRemove?
    requires var todo := Advance(cfg, now, zone, w, ev, armedAt);
             todo.Persist? && todo.edit.Put? && todo.edit.x.phase != w.phase
    ensures ExitProven(cfg, zone, w, ev)
  {}

  lemma EnrollExits(cfg: Config, now: Time, zone: Zone, w: Workflow, ev: Evidence, armedAt: Time)
    requires w.phase.EnrollDiscovered? || w.phase.EnrollWaitPublish? || w.phase.EnrollParentAdd?
    requires var todo := Advance(cfg, now, zone, w, ev, armedAt);
             todo.Persist? && todo.edit.Put? && todo.edit.x.phase != w.phase && !todo.edit.x.phase.Idle?
    ensures ExitProven(cfg, zone, w, ev)
  {}

  /** Every phase that is left forwards is left with its proofs; the only way back is the
      restart of an attested signer wait, the only way out an enrollment found ineligible. */
  lemma ForwardNeedsProof(cfg: Config, now: Time, zone: Zone, w: Workflow, ev: Evidence, armedAt: Time)
    requires Usual(cfg, now, w, ev)
    requires var todo := Advance(cfg, now, zone, w, ev, armedAt);
             && todo.Persist? && todo.edit.Put? && todo.edit.x.phase != w.phase && todo.edit.x.Active()
             && !(w.phase.DeactivateOld? && todo.edit.x.phase.WaitNewSignature?)
    ensures w.phase.DeleteOld? || w.phase.EnrollWaitParent? || ExitProven(cfg, zone, w, ev)
  {
    AdvanceLegit(cfg, now, zone, w, ev, armedAt);
    if w.phase.WaitParentRemove? {
      ParentExit(cfg, now, zone, w, ev, armedAt);
    } else if w.phase.EnrollDiscovered? || w.phase.EnrollWaitPublish? || w.phase.EnrollParentAdd? {
      EnrollExits(cfg, now, zone, w, ev, armedAt);
    } else if !w.phase.DeleteOld? && !w.phase.EnrollWaitParent? {
      RotationExits(cfg, now, zone, w, ev, armedAt);
    }
  }

  /** What each external write rests on. */
  predicate WriteProven(cfg: Config, zone: Zone, w: Workflow, ev: Evidence, todo: Todo) {
    match todo
    case Set(_, key, on, _) =>
      if on then
        w.phase.ActivateNew? && key == SignerId(w) && ById(ev.keys, key).Some?
        && (w.kind.Split? ==> PrepublishInventory(ev.keys, w))
      else
        w.phase.DeactivateOld? && key == w.oldKey && ReplacementProven(w, ev)
        && (w.kind.Split? ==> SplitInventory(ev.keys, w, true))
    case Delete(_, key, _) =>
      && w.phase.DeleteOld? && key == w.oldKey
      && ById(ev.keys, key).Some? && !ById(ev.keys, key).value.active && RetirementProven(w, ev)
    case Update(_, key) =>
      if w.kind.Enroll? then
        && w.phase.EnrollParentAdd? && FrozenPair(cfg, zone, w, ev) && PairSeen(cfg, w, ev, false) && RegistrarEmpty(ev)
        && key == EnrollmentInventory(cfg, ev.keys, w.newKey, w.newZsk, w.keyset).value.0.id
      else
        && w.phase.ParentRemove? && key == w.newKey && PrepublishInventory(ev.keys, w)
        && PublicationSeen(w, ev) && KeySignatureSeen(w, ev, w.newKey)
        && (if InitialSplit(w) then RegistrarEmpty(ev) else RegistrarHolds(ev, w.oldKey))
    case _ => true
  }

  /** The published set without doubt, and every role served by the new keys. */
  predicate RetirementProven(w: Workflow, ev: Evidence) {
    && Live(ById(ev.keys, w.newKey))
    && (!w.kind.Split? ==> RetirementInventory(ev.keys, w).Some?
                           && Shows(ev.dnskey, Ids(RetirementInventory(ev.keys, w).value)))
    && (w.kind.ZSK? ==> w.newKey in ev.zoneSigned)
    && (!w.kind.ZSK? ==> w.newKey in ev.dnskeySigned && ParentServes(ev, w.newKey))
    && (w.kind.Split? ==> Live(ById(ev.keys, w.newZsk)) && w.newZsk in ev.zoneSigned && RegistrarHolds(ev, w.newKey))
  }

  lemma ActivationProven(cfg: Config, now: Time, zone: Zone, w: Workflow, ev: Evidence)
    requires w.phase.ActivateNew? && ActivateNewPlan(now, w, ev).Set?
    ensures WriteProven(cfg, zone, w, ev, ActivateNewPlan(now, w, ev))
  {}

  lemma SwitchOffProven(cfg: Config, now: Time, zone: Zone, w: Workflow, ev: Evidence)
    requires w.phase.DeactivateOld? && DeactivateOldPlan(cfg, now, w, ev).Set?
    ensures WriteProven(cfg, zone, w, ev, DeactivateOldPlan(cfg, now, w, ev))
  {}

  lemma DeletionProven(cfg: Config, zone: Zone, w: Workflow, ev: Evidence)
    requires w.phase.DeleteOld? && !w.kind.Enroll?
    ensures DeleteOldPlan(w, ev).Delete? ==> WriteProven(cfg, zone, w, ev, DeleteOldPlan(w, ev))
    ensures DeleteOldPlan(w, ev) == Finish(w) ==> RetirementProven(w, ev) && ById(ev.keys, w.oldKey).None?
  {}

  lemma ReplacementAsked(cfg: Config, now: Time, zone: Zone, w: Workflow, ev: Evidence)
    requires w.phase.ParentRemove? && !w.kind.Enroll?
    requires ParentReplacePlan(now, w, ev).Persist? && ParentReplacePlan(now, w, ev).ok.Update?
    ensures WriteProven(cfg, zone, w, ev, ParentReplacePlan(now, w, ev).ok)
  {}

  lemma EnrollmentAsked(cfg: Config, now: Time, zone: Zone, w: Workflow, ev: Evidence, armedAt: Time)
    requires w.phase.EnrollParentAdd? && w.kind.Enroll?
    requires var todo := EnrollParentAddPlan(cfg, now, zone, w, ev, armedAt); todo.Persist? && todo.ok.Update?
    ensures WriteProven(cfg, zone, w, ev, EnrollParentAddPlan(cfg, now, zone, w, ev, armedAt).ok)
  {}

  /** No key is switched or deleted without proof, and never twice. */
  lemma SwitchesNeedProof(cfg: Config, now: Time, zone: Zone, w: Workflow, ev: Evidence, armedAt: Time)
    requires Usual(cfg, now, w, ev)
    requires Advance(cfg, now, zone, w, ev, armedAt).Set? || Advance(cfg, now, zone, w, ev, armedAt).Delete?
    ensures WriteProven(cfg, zone, w, ev, Advance(cfg, now, zone, w, ev, armedAt))
  {
    AdvanceLegit(cfg, now, zone, w, ev, armedAt);
    if w.phase.ActivateNew? {
      ActivationProven(cfg, now, zone, w, ev);
    } else if w.phase.DeactivateOld? {
      SwitchOffProven(cfg, now, zone, w, ev);
    } else {
      DeletionProven(cfg, zone, w, ev);
    }
  }

  /** The registrar is written only over exactly the old key, or over proven absence. */
  lemma UpdatesNeedProof(cfg: Config, now: Time, zone: Zone, w: Workflow, ev: Evidence, armedAt: Time)
    requires Usual(cfg, now, w, ev)
    requires Advance(cfg, now, zone, w, ev, armedAt).Persist? && Advance(cfg, now, zone, w, ev, armedAt).ok.Update?
    ensures WriteProven(cfg, zone, w, ev, Advance(cfg, now, zone, w, ev, armedAt).ok)
  {
    AdvanceLegit(cfg, now, zone, w, ev, armedAt);
    if w.phase.ParentRemove? {
      ReplacementAsked(cfg, now, zone, w, ev);
    } else {
      EnrollmentAsked(cfg, now, zone, w, ev, armedAt);
    }
  }

  /** A workflow ends only with its old key gone or its enrollment visible everywhere. */
  predicate CompletionProven(cfg: Config, zone: Zone, w: Workflow, ev: Evidence) {
    if w.phase.DeleteOld? then RetirementProven(w, ev) && ById(ev.keys, w.oldKey).None?
    else
      && FrozenPair(cfg, zone, w, ev) && PairSeen(cfg, w, ev, true)
      && var k := EnrollmentInventory(cfg, ev.keys, w.newKey, w.newZsk, w.keyset).value.0.id;
      && ParentServes(ev, k) && RegistrarHolds(ev, k)
  }

  lemma EnrollmentCompletes(cfg: Config, now: Time, zone: Zone, w: Workflow, ev: Evidence)
    ensures w.phase.EnrollDiscovered? && EnrollDiscoveredPlan(cfg, now, zone, w, ev) == Finish(w) ==> CompletionProven(cfg, zone, w, ev)
    ensures w.phase.EnrollWaitParent? && EnrollWaitParentPlan(cfg, now, zone, w, ev) == Finish(w) ==> CompletionProven(cfg, zone, w, ev)
  {}

  lemma CompletionNeedsProof(cfg: Config, now: Time, zone: Zone, w: Workflow, ev: Evidence, armedAt: Time)
    requires Usual(cfg, now, w, ev) && Advance(cfg, now, zone, w, ev, armedAt) == Finish(w)
    ensures CompletionProven(cfg, zone, w, ev)
  {
    AdvanceLegit(cfg, now, zone, w, ev, armedAt);
    if w.phase.DeleteOld? {
      DeletionProven(cfg, zone, w, ev);
    } else {
      EnrollmentCompletes(cfg, now, zone, w, ev);
    }
  }
}
