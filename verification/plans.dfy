/** What each phase handler decides to do, as a function of the workflow, the clock and
    the evidence. A Todo is the rest of one reconciliation: store updates and at most one
    external write, with the continuation after success and after failure. The handlers
    themselves are the methods of module Controllers, proved to carry out these plans. */
module Plans {
  import opened Model
  import opened Inventory
  import opened Edits

  datatype Job = Job(id: int, stid: string, status: JobStatus)

  datatype Todo =
    | Rest
    | Persist(edit: Edit, ok: Todo, fail: Todo)
    | Create(w: Workflow, role: KeyType, algorithm: string, active: bool, zskSlot: bool)
    | Set(w: Workflow, key: int, on: bool, ok: Todo)
    | Delete(w: Workflow, key: int, ok: Todo)
    | Update(w: Workflow, key: int)

  /** An error reaches advance, which records a retry. */
  function Fail(w: Workflow): Todo { Persist(Retry(w.Id()), Rest, Rest) }

  /** block returns an error as well, so a blocked record still gets its retry. */
  function Stop(w: Workflow): Todo { Persist(Block(w.Id()), Fail(w), Fail(w)) }

  function Go(w: Workflow, x: Workflow): Todo { Persist(Put(x), Rest, Fail(w)) }

  function Finish(w: Workflow): Todo { Persist(Complete(w), Rest, Fail(w)) }

  function Moved(w: Workflow, now: Time, phase: Phase, next: Time): Workflow {
    w.(phase := phase, startedAt := now, nextAt := next, attempts := 0)
  }

  predicate Shows(seen: Option<Seen>, ids: set<int>) { seen.Some? && seen.value.ids == ids }

  /** sameMaterial against the one key `id`. */
  predicate Holds(remote: Remote, id: int) { remote.enabled && remote.material == [id] }

  predicate Empty(remote: Remote) { !remote.enabled && remote.material == [] }

  predicate Live(k: Option<Key>) { k.Some? && k.value.active && k.value.published }

  function MaxTtl(ttls: seq<Ttl>): (r: Ttl)
    ensures r >= DAY
    ensures forall t <- ttls :: t <= r
  {
    if ttls == [] then DAY
    else
      var rest := MaxTtl(ttls[..|ttls| - 1]);
      assert ttls == ttls[..|ttls| - 1] + [ttls[|ttls| - 1]];
      if ttls[|ttls| - 1] > rest then ttls[|ttls| - 1] else rest
  }

  // ---- prepublish -----------------------------------------------------------------

  datatype Verdict = Skip | Reject | Accept

  predicate TakesOtherSlot(w: Workflow, id: int, zskSlot: bool) {
    (zskSlot && id == w.newKey) || (!zskSlot && id == w.newZsk && w.newZsk != 0)
  }

  /** One candidate in the read-back of an earlier create. */
  function Judge(cfg: Config, w: Workflow, k: Key, role: KeyType, algorithm: string, active: bool,
                 zskSlot: bool): Verdict {
    if k.id == w.oldKey || k.active != active || !k.published then Skip
    else if TakesOtherSlot(w, k.id, zskSlot) then Reject
    else if k.keyType != role && (!w.kind.Split? || !k.keyType.CskType?) then Skip
    else if Fits(cfg, w, k, role, algorithm) then Accept
    else Reject
  }

  predicate Fits(cfg: Config, w: Workflow, k: Key, role: KeyType, algorithm: string) {
    var data := ValidRole(k, role, w.kind.Split?);
    k.algorithm != "" && k.algorithm == algorithm && data.Some? && LabelMatches(cfg, k.algorithm, data.value.algorithm)
  }

  /** The adoptable keys, None when one of them makes the scan fail. */
  function Adoptable(cfg: Config, w: Workflow, keys: seq<Key>, role: KeyType, algorithm: string, active: bool,
                     zskSlot: bool)
    : (r: Option<seq<Key>>)
    ensures r.Some? ==> forall k <- r.value :: k in keys && Judge(cfg, w, k, role, algorithm, active, zskSlot) == Accept
  {
    if keys == [] then Some([])
    else
      var head := Judge(cfg, w, keys[|keys| - 1], role, algorithm, active, zskSlot);
      var rest := Adoptable(cfg, w, keys[..|keys| - 1], role, algorithm, active, zskSlot);
      if rest.None? || head == Reject then None
      else if head == Accept then Some(rest.value + [keys[|keys| - 1]])
      else rest
  }

  /** The record once a replacement slot has its key. */
  function Filled(w: Workflow, now: Time, zskSlot: bool, id: int): Workflow {
    if w.kind.Split? && !zskSlot then Moved(w, now, Prepublish, now).(newKey := id)
    else if zskSlot then Moved(w, now, WaitPublish, now).(newZsk := id, evidenceAt := UNSET)
    else Moved(w, now, WaitPublish, now).(newKey := id, evidenceAt := UNSET)
  }

  function AdoptOrCreate(cfg: Config, now: Time, w: Workflow, keys: seq<Key>, role: KeyType,
                         algorithm: string, active: bool, zskSlot: bool): Todo
  {
    var found := Adoptable(cfg, w, keys, role, algorithm, active, zskSlot);
    if found.None? || |found.value| > 1 then Fail(w)
    else if |found.value| == 1 then Go(w, Filled(w, now, zskSlot, found.value[0].id))
    else if Marker(w, zskSlot) != UNSET then Fail(w)
    else Persist(MarkCreate(w, zskSlot), Create(Marked(w, zskSlot, now), role, algorithm, active, zskSlot), Fail(w))
  }

  /** The checks on a create response before its id is recorded. */
  predicate GoodReply(cfg: Config, w: Workflow, k: Key, role: KeyType, algorithm: string, active: bool, zskSlot: bool) {
    && k.id > 0 && k.id != w.oldKey && !TakesOtherSlot(w, k.id, zskSlot)
    && k.active == active && k.published
    && Fits(cfg, w, k, role, algorithm)
  }

  function AfterCreate(cfg: Config, now: Time, w: Workflow, role: KeyType, algorithm: string, active: bool,
                       zskSlot: bool, reply: Option<Key>): Todo
  {
    if reply.None? || !GoodReply(cfg, w, reply.value, role, algorithm, active, zskSlot) then Fail(w)
    else Go(w, Filled(w, now, zskSlot, reply.value.id))
  }

  /** How a split migration finds the parent before it creates any key. */
  function ClassifyParent(now: Time, w: Workflow, prior: Key, ev: Evidence): Todo {
    if prior.data.None? || ev.remote.None? then Fail(w)
    else if Holds(ev.remote.value, prior.id) then Go(w, Moved(w, now, Prepublish, now).(parentMode := Existing))
    else if Empty(ev.remote.value) then
      if ev.noDs then Go(w, Moved(w, now, Prepublish, now).(parentMode := Initial)) else Fail(w)
    else Stop(w)
  }

  function PrepublishPlan(cfg: Config, now: Time, w: Workflow, ev: Evidence): Todo {
    if w.oldKey == 0 then
      var prior := ExactlyOneActive(ev.keys, if w.kind.Split? then CskType else RoleOf(w.kind));
      if prior.None? then Stop(w) else Go(w, Moved(w, now, Prepublish, now).(oldKey := prior.value.id))
    else
      var prior := ById(ev.keys, w.oldKey);
      if prior.None? then Stop(w)
      else
        var algorithm := if prior.value.algorithm == "" then cfg.algorithm else prior.value.algorithm;
        if w.kind.Split? && w.parentMode.NoMode? then ClassifyParent(now, w, prior.value, ev)
        else if w.newKey == 0 then
          AdoptOrCreate(cfg, now, w, ev.keys, RoleOf(w.kind), algorithm, !w.kind.ZSK?, false)
        else if w.kind.Split? && w.newZsk == 0 then
          AdoptOrCreate(cfg, now, w, ev.keys, ZskType, algorithm, false, true)
        else Go(w, Moved(w, now, WaitPublish, now).(evidenceAt := UNSET))
  }

  // ---- publication ----------------------------------------------------------------

  predicate InitialSplit(w: Workflow) { w.kind.Split? && w.parentMode.Initial? }

  function WaitPublishPlan(cfg: Config, now: Time, w: Workflow, ev: Evidence): Todo {
    if ById(ev.keys, w.oldKey).None? || ById(ev.keys, w.newKey).None? then Stop(w)
    else if w.kind.Split? && ById(ev.keys, w.newZsk).None? then Stop(w)
    else if !PrepublishInventory(ev.keys, w) then Stop(w)
    else ProvePublication(cfg, now, w, ev)
  }

  function ProvePublication(cfg: Config, now: Time, w: Workflow, ev: Evidence): Todo {
    var seen := if InitialSplit(w) then ev.authDnskey else ev.dnskey;
    var signed := if InitialSplit(w) then ev.authDnskeySigned else ev.dnskeySigned;
    if !Shows(seen, PublishedIds(ev.keys)) then Fail(w)
    else if (w.kind.KSK? || w.kind.Split?) && (w.oldKey !in signed || w.newKey !in signed) then Fail(w)
    else if w.evidenceAt == UNSET then
      var wait := Max(seen.value.ttl, cfg.minDnskeyWait) + cfg.margin;
      Go(w, Moved(w, now, WaitPublish, now + wait).(dnskeyTtl := seen.value.ttl, evidenceAt := now))
    else
      Go(w, Moved(w, now, if w.kind.KSK? || w.kind.Split? then ParentRemove else ActivateNew, now).(evidenceAt := UNSET))
  }

  /** The key that will sign zone data. */
  function SignerId(w: Workflow): int { if w.kind.Split? then w.newZsk else w.newKey }

  function ActivateNewPlan(now: Time, w: Workflow, ev: Evidence): Todo {
    var k := ById(ev.keys, SignerId(w));
    var next := Go(w, Moved(w, now, WaitNewSignature, now).(evidenceAt := UNSET));
    if w.kind.Split? && !PrepublishInventory(ev.keys, w) && !SplitInventory(ev.keys, w, true) then Stop(w)
    else if k.None? then Stop(w)
    else if !k.value.active then Set(w, k.value.id, true, next)
    else next
  }

  // ---- the new signature ----------------------------------------------------------

  /** Every live proof behind a signer-transition attestation; the current maximum TTL
      when all of them pass. */
  function SignerEvidence(cfg: Config, w: Workflow, ev: Evidence): Option<Ttl> {
    var prior, ksk, zsk := ById(ev.keys, w.oldKey), ById(ev.keys, w.newKey), ById(ev.keys, w.newZsk);
    if !SplitInventory(ev.keys, w, true) then None
    else if !ExactRole(cfg, prior.value, KskType) || !ExactRole(cfg, ksk.value, KskType) || !ExactRole(cfg, zsk.value, ZskType) then None
    else if ev.remote.None? || !Holds(ev.remote.value, w.newKey) then None
    else if w.newKey !in ev.authDs || w.newKey !in ev.dsExact then None
    else if !Shows(ev.dnskey, PublishedIds(ev.keys)) || w.newKey !in ev.dnskeySigned then None
    else if w.newZsk !in ev.zoneSigned || !ev.delegation || ev.zoneTtls.None? then None
    else Some(MaxTtl(ev.zoneTtls.value))
  }

  predicate ExactRole(cfg: Config, k: Key, role: KeyType) {
    var data := ValidRole(k, role, false);
    data.Some? && LabelMatches(cfg, k.algorithm, data.value.algorithm)
  }

  /** A larger live TTL starts the attested wait again. */
  function RestartSigner(cfg: Config, now: Time, w: Workflow, ttl: Ttl): Todo {
    Go(w, Moved(w, now, WaitNewSignature, now + ttl + cfg.margin).(zoneTtl := ttl, evidenceAt := now, signerAt := now))
  }

  function WaitNewSignaturePlan(cfg: Config, now: Time, w: Workflow, ev: Evidence): Todo {
    var signer := ById(ev.keys, SignerId(w));
    if ById(ev.keys, w.oldKey).None? || ById(ev.keys, w.newKey).None? then Fail(w)
    else if signer.None? then Stop(w)
    else if SignerId(w) !in ev.zoneSigned then Fail(w)
    else if !Live(signer) then Stop(w)
    else if w.zoneTtl == 0 then
      if ev.zoneTtls.None? then Fail(w)
      else Go(w, Moved(w, now, WaitNewSignature, now).(zoneTtl := MaxTtl(ev.zoneTtls.value)))
    else if !w.kind.Split? then Proceed(now, w)
    else SplitWait(cfg, now, w, ev)
  }

  function Proceed(now: Time, w: Workflow): Todo { Go(w, Moved(w, now, DeactivateOld, now).(evidenceAt := UNSET)) }

  /** A split migration waits out its own overlap, or the attested signer transition. */
  function SplitWait(cfg: Config, now: Time, w: Workflow, ev: Evidence): Todo {
    if w.signerAt == UNSET then
      if w.oldKey !in ev.zoneSigned then Fail(w)
      else if w.evidenceAt == UNSET then
        Go(w, Moved(w, now, WaitNewSignature, now + w.zoneTtl + cfg.margin).(evidenceAt := now))
      else Proceed(now, w)
    else if now < w.signerAt + w.zoneTtl + cfg.margin then
      Go(w, Moved(w, now, WaitNewSignature, w.signerAt + w.zoneTtl + cfg.margin))
    else
      var current := SignerEvidence(cfg, w, ev);
      if current.None? then Fail(w)
      else if current.value > w.zoneTtl then RestartSigner(cfg, now, w, current.value)
      else Proceed(now, w)
  }

  // ---- retiring the old key -------------------------------------------------------

  function DeactivateOldPlan(cfg: Config, now: Time, w: Workflow, ev: Evidence): Todo {
    var before := SplitInventory(ev.keys, w, true);
    var attested := w.kind.Split? && w.signerAt != UNSET && before;
    var current := SignerEvidence(cfg, w, ev);
    if w.kind.Split? && !before && !SplitInventory(ev.keys, w, false) then Stop(w)
    else if attested && current.None? then Fail(w)
    else if attested && current.value > w.zoneTtl then RestartSigner(cfg, now, w, current.value)
    else Deactivate(cfg, now, w, ev)
  }

  function Deactivate(cfg: Config, now: Time, w: Workflow, ev: Evidence): Todo {
    var prior, incoming, zsk := ById(ev.keys, w.oldKey), ById(ev.keys, w.newKey), ById(ev.keys, w.newZsk);
    if prior.None? || incoming.None? then Fail(w)
    else if !Live(incoming) then Stop(w)
    else if w.kind.ZSK? && w.newKey !in ev.zoneSigned then Fail(w)
    else if !w.kind.ZSK? && (w.newKey !in ev.dnskeySigned || w.newKey !in ev.dsExact) then Fail(w)
    else if w.kind.Split? && !Live(zsk) then Stop(w)
    else if w.kind.Split? && w.newZsk !in ev.zoneSigned then Fail(w)
    else if !Shows(ev.dnskey, PublishedIds(ev.keys)) then Fail(w)
    else SwitchOff(cfg, now, w, ev, prior.value)
  }

  /** All proofs hold: check the zone TTL once more, switch the old key off, wait. */
  function SwitchOff(cfg: Config, now: Time, w: Workflow, ev: Evidence, prior: Key): Todo {
    if !w.kind.KSK? && ev.zoneTtls.None? then Fail(w)
    else if !w.kind.KSK? && MaxTtl(ev.zoneTtls.value) > w.zoneTtl then
      var ttl := MaxTtl(ev.zoneTtls.value);
      Go(w, Moved(w, now, DeactivateOld, now + ttl + cfg.margin).(zoneTtl := ttl, evidenceAt := now))
    else
      var next := Go(w, if w.kind.KSK? then Moved(w, now, DeleteOld, now)
                        else Moved(w, now, WaitRetire, now + w.zoneTtl + cfg.margin));
      if prior.active then Set(w, prior.id, false, next) else next
  }

  function WaitRetirePlan(now: Time, w: Workflow, ev: Evidence): Todo {
    if ById(ev.keys, w.oldKey).None? || ById(ev.keys, w.newKey).None? then Fail(w)
    else if w.kind.Split? && ById(ev.keys, w.newZsk).None? then Stop(w)
    else if SignerId(w) !in ev.zoneSigned then Fail(w)
    else Go(w, Moved(w, now, DeleteOld, now))
  }

  function DeleteOldPlan(w: Workflow, ev: Evidence): Todo {
    var incoming, prior, zsk := ById(ev.keys, w.newKey), ById(ev.keys, w.oldKey), ById(ev.keys, w.newZsk);
    var retirement := RetirementInventory(ev.keys, w);
    if !Live(incoming) then Stop(w)
    else if !w.kind.Split? && retirement.None? then Stop(w)
    else if !w.kind.ZSK? && (w.newKey !in ev.dnskeySigned || w.newKey !in ev.dsExact || w.newKey !in ev.authDs) then Fail(w)
    else if w.kind.Split? && !Live(zsk) then Stop(w)
    else if w.kind.Split? && (w.newZsk !in ev.zoneSigned || ev.remote.None? || incoming.value.data.None?) then Fail(w)
    else if w.kind.Split? && !Holds(ev.remote.value, w.newKey) then Stop(w)
    else if w.kind.ZSK? && w.newKey !in ev.zoneSigned then Fail(w)
    else
      var expected := if w.kind.Split? then {w.newKey, w.newZsk} + (if prior.Some? then {w.oldKey} else {})
                      else Ids(retirement.value);
      if !Shows(ev.dnskey, expected) then Fail(w)
      else if prior.None? then Finish(w)
      else if prior.value.active then Stop(w)
      else Delete(w, prior.value.id, Finish(w))
  }

  // ---- the parent -----------------------------------------------------------------

  function ParentReplacePlan(now: Time, w: Workflow, ev: Evidence): Todo {
    var prior, incoming := ById(ev.keys, w.oldKey), ById(ev.keys, w.newKey);
    if w.reg.ctid.NoCtid? then
      Go(w, Moved(w, now, ParentRemove, now).(reg := w.reg.(ctid := ReplaceCtid(w.zone, w.kind, w.startedAt))))
    else if prior.None? || incoming.None? then Fail(w)
    else if !PrepublishInventory(ev.keys, w) then Stop(w)
    else ReplaceMaterial(now, w, ev, prior.value, incoming.value)
  }

  function ReplaceMaterial(now: Time, w: Workflow, ev: Evidence, prior: Key, incoming: Key): Todo {
    var seen := if InitialSplit(w) then ev.authDnskey else ev.dnskey;
    var signed := if InitialSplit(w) then ev.authDnskeySigned else ev.dnskeySigned;
    var zoneSigned := if InitialSplit(w) then ev.authZoneSigned else ev.zoneSigned;
    if !Shows(seen, PublishedIds(ev.keys)) || w.newKey !in signed then Fail(w)
    else if w.kind.Split? && w.oldKey !in zoneSigned then Fail(w)
    else if prior.data.None? || incoming.data.None? || ev.remote.None? then Fail(w)
    else if Holds(ev.remote.value, w.newKey) then Go(w, Moved(w, now, WaitParentRemove, now).(evidenceAt := UNSET))
    else if InitialSplit(w) && (ev.remote.value.enabled || ev.remote.value.material != [] || !ev.noDs) then Stop(w)
    else if !InitialSplit(w) && !Holds(ev.remote.value, w.oldKey) then Stop(w)
    else OneAttempt(now, w)
  }

  function OneAttempt(now: Time, w: Workflow): Todo {
    if w.reg.attemptedAt != UNSET then (if now - w.reg.attemptedAt >= DAY then Stop(w) else Fail(w))
    else Persist(MarkReplace(w), Update(Requested(w, now), w.newKey), Fail(w))
  }

  function AfterUpdate(now: Time, w: Workflow, reply: Option<Job>): Todo {
    if reply.None? then Fail(w)
    else if w.kind.Enroll? && reply.value.id <= 0 then Stop(w)
    else
      var reg := w.reg.(stid := reply.value.stid, jobId := reply.value.id, jobStatus := reply.value.status);
      Go(w, Moved(w, now, if w.kind.Enroll? then EnrollWaitParent else WaitParentRemove, now)
              .(reg := reg, evidenceAt := UNSET))
  }

  predicate AwaitsJob(w: Workflow) { w.reg.jobId > 0 && !w.reg.jobStatus.Succeeded? }

  /** A pending job, or an unavailable one that the registrar's own material settles. */
  function JobPlan(now: Time, w: Workflow, ev: Evidence, k: Key): Todo {
    var settled := Go(w, Moved(w, now, w.phase, now).(reg := w.reg.(jobStatus := Succeeded)));
    match ev.job
    case JobUnreadable => Fail(w)
    case JobUnavailable =>
      if k.data.None? || ev.remote.None? || !Holds(ev.remote.value, k.id) then Fail(w) else settled
    case JobReport(status) =>
      if status.Failed? then Stop(w)
      else if !status.Succeeded? then Fail(w)
      else settled
  }

  function DsObserved(cfg: Config, now: Time, w: Workflow, ttl: Ttl): Todo {
    var wait := Max(ttl, cfg.minParentWait) + cfg.margin;
    Go(w, Moved(w, now, w.phase, now + wait).(dsTtl := ttl, evidenceAt := now))
  }

  function WaitParentReplacePlan(cfg: Config, now: Time, w: Workflow, ev: Evidence): Todo {
    if w.kind.Split? && !PrepublishInventory(ev.keys, w) then Stop(w) else ParentWait(cfg, now, w, ev)
  }

  function ParentWait(cfg: Config, now: Time, w: Workflow, ev: Evidence): Todo {
    var incoming := ById(ev.keys, w.newKey);
    if ById(ev.keys, w.oldKey).None? || incoming.None? then Fail(w)
    else if AwaitsJob(w) then JobPlan(now, w, ev, incoming.value)
    else if w.newKey !in ev.authDs then Fail(w)
    else if w.evidenceAt == UNSET then DsObserved(cfg, now, w, ev.authDs[w.newKey])
    else if w.newKey !in ev.dsExact then Fail(w)
    else if !Live(incoming) then Stop(w)
    else if !Shows(ev.dnskey, PublishedIds(ev.keys)) || w.newKey !in ev.dnskeySigned then Fail(w)
    else Go(w, Moved(w, now, if w.kind.Split? then ActivateNew else DeactivateOld, now).(evidenceAt := UNSET))
  }

  // ---- enrollment -----------------------------------------------------------------

  predicate EnrollmentEvidence(ev: Evidence, ksk: int, zsk: int, recursive: bool) {
    && ev.delegation
    && Shows(if recursive then ev.dnskey else ev.authDnskey, PublishedIds(ev.keys))
    && ksk in (if recursive then ev.dnskeySigned else ev.authDnskeySigned)
    && zsk in (if recursive then ev.zoneSigned else ev.authZoneSigned)
  }

  predicate Unclassified(w: Workflow) { w.newKey == 0 || w.newZsk == 0 || w.keyset == NoFingerprint }

  function ClassifyEnrollment(cfg: Config, now: Time, w: Workflow, ev: Evidence): Todo {
    var found := EnrollmentInventory(cfg, ev.keys, 0, 0, NoFingerprint);
    if KeyScheme(ev.keys).CskScheme? then
      Persist(Put(w.(phase := Idle, completedAt := now, nextAt := UNSET, disposition := Ineligible)), Rest, Fail(w))
    else if found.None? then Fail(w)
    else
      Go(w, Moved(w, now, EnrollDiscovered, now + cfg.discoveryGrace)
              .(newKey := found.value.0.id, newZsk := found.value.1.id, keyset := found.value.2,
                evidenceAt := UNSET, dnskeyTtl := 0))
  }

  function EnrollDiscoveredPlan(cfg: Config, now: Time, zone: Zone, w: Workflow, ev: Evidence): Todo {
    var found := EnrollmentInventory(cfg, ev.keys, w.newKey, w.newZsk, w.keyset);
    if Unclassified(w) then ClassifyEnrollment(cfg, now, w, ev)
    else if found.None? || zone.id != w.zoneId then Stop(w)
    else if ev.remote.None? then Fail(w)
    else if ev.remote.value.enabled then
      if !Holds(ev.remote.value, found.value.0.id) then Stop(w)
      else if !EnrollmentEvidence(ev, found.value.0.id, found.value.1.id, true) then Fail(w)
      else if found.value.0.id !in ev.authDs || found.value.0.id !in ev.dsExact then Fail(w)
      else Finish(w)
    else if ev.remote.value.material != [] then Stop(w)
    else if !ev.noDs || !ev.delegation then Fail(w)
    else Go(w, Moved(w, now, EnrollWaitPublish, now).(evidenceAt := UNSET, dnskeyTtl := 0))
  }

  function EnrollWaitPublishPlan(cfg: Config, now: Time, zone: Zone, w: Workflow, ev: Evidence): Todo {
    var found := EnrollmentInventory(cfg, ev.keys, w.newKey, w.newZsk, w.keyset);
    if found.None? || zone.id != w.zoneId then Stop(w)
    else if !EnrollmentEvidence(ev, found.value.0.id, found.value.1.id, false) then Fail(w)
    else if w.evidenceAt == UNSET then
      var ttl := ev.authDnskey.value.ttl;
      Go(w, Moved(w, now, EnrollWaitPublish, now + Max(ttl, cfg.minDnskeyWait) + cfg.margin)
              .(evidenceAt := now, dnskeyTtl := ttl))
    else Go(w, Moved(w, now, EnrollParentAdd, now).(evidenceAt := UNSET))
  }

  function EnrollParentAddPlan(cfg: Config, now: Time, zone: Zone, w: Workflow, ev: Evidence, armedAt: Time): Todo {
    var found := EnrollmentInventory(cfg, ev.keys, w.newKey, w.newZsk, w.keyset);
    if w.reg.attemptedAt == UNSET && armedAt == UNSET then Stop(w)
    else if found.None? || zone.id != w.zoneId then Stop(w)
    else if !EnrollmentEvidence(ev, found.value.0.id, found.value.1.id, false) then Fail(w)
    else if !ev.noDs then Stop(w)
    else AddMaterial(now, zone, w, ev, armedAt, found.value.0)
  }

  function AddMaterial(now: Time, zone: Zone, w: Workflow, ev: Evidence, armedAt: Time, ksk: Key): Todo {
    if ksk.data.None? then Fail(w)
    else if w.reg.payload.Some? && w.reg.payload != ksk.data then Stop(w)
    else if ev.remote.None? then Fail(w)
    else if Holds(ev.remote.value, ksk.id) then Go(w, Moved(w, now, EnrollWaitParent, now).(evidenceAt := UNSET))
    else if !Empty(ev.remote.value) then Stop(w)
    else if w.reg.ctid.NoCtid? then
      Go(w, Moved(w, now, EnrollParentAdd, now)
              .(reg := w.reg.(ctid := EnrollCtid(armedAt, zone.name, w.keyset), payload := ksk.data)))
    else if w.reg.payload.None? then Stop(w)
    else if w.reg.attemptedAt != UNSET then (if now - w.reg.attemptedAt >= DAY then Stop(w) else Fail(w))
    else Persist(MarkEnroll(w), Update(Requested(w, now), ksk.id), Fail(w))
  }

  function EnrollWaitParentPlan(cfg: Config, now: Time, zone: Zone, w: Workflow, ev: Evidence): Todo {
    var found := EnrollmentInventory(cfg, ev.keys, w.newKey, w.newZsk, w.keyset);
    if found.None? || zone.id != w.zoneId then Stop(w)
    else
      var ksk, zsk := found.value.0, found.value.1;
      if AwaitsJob(w) then JobPlan(now, w, ev, ksk)
      else if ksk.id !in ev.authDs then Fail(w)
      else if w.evidenceAt == UNSET || ev.authDs[ksk.id] > w.dsTtl then DsObserved(cfg, now, w, ev.authDs[ksk.id])
      else if !EnrollmentEvidence(ev, ksk.id, zsk.id, true) || ksk.id !in ev.dsExact then Fail(w)
      else if ev.remote.None? then Fail(w)
      else if !Holds(ev.remote.value, ksk.id) then Stop(w)
      else Finish(w)
  }

  // ---- dispatch -------------------------------------------------------------------

  function Advance(cfg: Config, now: Time, zone: Zone, w: Workflow, ev: Evidence, armedAt: Time): Todo {
    if w.nextAt != UNSET && now < w.nextAt then Rest
    else match w.phase
      case Prepublish => PrepublishPlan(cfg, now, w, ev)
      case WaitPublish => WaitPublishPlan(cfg, now, w, ev)
      case ActivateNew => ActivateNewPlan(now, w, ev)
      case WaitNewSignature => WaitNewSignaturePlan(cfg, now, w, ev)
      case DeactivateOld => DeactivateOldPlan(cfg, now, w, ev)
      case ParentRemove => ParentReplacePlan(now, w, ev)
      case WaitParentRemove => WaitParentReplacePlan(cfg, now, w, ev)
      case WaitRetire => WaitRetirePlan(now, w, ev)
      case DeleteOld => DeleteOldPlan(w, ev)
      case EnrollDiscovered => EnrollDiscoveredPlan(cfg, now, zone, w, ev)
      case EnrollWaitPublish => EnrollWaitPublishPlan(cfg, now, zone, w, ev)
      case EnrollParentAdd => EnrollParentAddPlan(cfg, now, zone, w, ev, armedAt)
      case EnrollWaitParent => EnrollWaitParentPlan(cfg, now, zone, w, ev)
      case Blocked => Rest
      case Idle => Rest
  }

  function ActiveKinds(s: State, zone: string): seq<Kind> {
    (if Lookup(s, WorkflowId(zone, ZSK)).Active() then [ZSK] else []) +
    (if Lookup(s, WorkflowId(zone, KSK)).Active() then [KSK] else []) +
    (if Lookup(s, WorkflowId(zone, Split)).Active() then [Split] else []) +
    (if Lookup(s, WorkflowId(zone, Enroll)).Active() then [Enroll] else [])
  }

  function BlockOnly(zone: string, kind: Kind): Todo { Persist(Block(WorkflowId(zone, kind)), Rest, Rest) }

  /** reconcileZone after its bootstrap update. `pick` is the index Go's map iteration
      happens to put first. */
  function Reconcile(cfg: Config, now: Time, zone: Zone, s: State, ev: Evidence, pick: nat): Todo {
    var active := ActiveKinds(s, zone.name);
    var scheme := KeyScheme(ev.keys);
    if |active| > 1 then BlockOnly(zone.name, active[pick % |active|])
    else if |active| == 1 then
      var w := Lookup(s, WorkflowId(zone.name, active[0]));
      if w.kind.Enroll? && w.reg.attemptedAt == UNSET && (!cfg.enrollEnabled || zone.name !in cfg.enrollScope)
      then BlockOnly(zone.name, Enroll)
      else Advance(cfg, now, zone, w, ev, s.armedAt)
    else if scheme.CskScheme? then Rest
    else if scheme.UnknownScheme? then BlockOnly(zone.name, ZSK)
    else if now - Lookup(s, WorkflowId(zone.name, ZSK)).completedAt >= cfg.zskInterval then
      Persist(Begin(zone.name, ZSK), Rest, Rest)
    else if now - Lookup(s, WorkflowId(zone.name, KSK)).completedAt >= cfg.kskInterval then
      Persist(Begin(zone.name, KSK), Rest, Rest)
    else Rest
  }
}
