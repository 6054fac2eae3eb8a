/** What every run guarantees: resolvers never lose the zone, the registrar and PowerDNS
    never see a call twice, waits are never cut short. */
module Guarantees {
  import opened Model
  import opened Inventory
  import opened Edits
  import opened Plans
  import opened World
  import opened Facts
  import opened Good
  import opened Safety
  import opened Races
  import opened Legitimacy
  import opened Logs
  import opened Calls
  import opened ReconcileSafety
  import opened Enrollment
  import opened Arming
  import opened Bookkeeping
  import opened Runs

  // ---- caches --------------------------------------------------------------------------

  /** A resolver may hold what is served now, and earlier content until its TTL plus the
      time a replacement takes to reach every server has passed. */
  ghost predicate CachedDnskey(e: Env, m: Time, now: Time, v: Epoch) {
    v == e.cur || (v in e.past && now < v.until + v.dnskeyTtl + m)
  }

  ghost predicate CachedZone(e: Env, m: Time, now: Time, v: Epoch) {
    v == e.cur || (v in e.past && now < v.until + v.zoneTtl + m)
  }

  ghost predicate CachedDs(e: Env, m: Time, now: Time, v: Epoch) {
    v == e.cur || (v in e.past && now < v.until + v.dsTtl + m)
  }

  lemma RunZone(cfg: Config, w: World, actions: seq<Action>, zone: string)
    requires FirstStart(cfg, w) && zone in Run(cfg, w, actions).envs
    ensures var after := Run(cfg, w, actions);
            EnvInv(after.envs[zone], after.now) && SafeEnv(after.envs[zone], cfg.margin, after.now)
  {
    RunInv(cfg, w, actions);
    var after := Run(cfg, w, actions);
    assert SiteInv(cfg, zone, after.now, Site(after.mem, after.disk, after.envs[zone], []));
  }

  lemma EmptyOrNot(s: set<int>)
    ensures s == {} || exists k :: k in s
  {
    if forall k :: k !in s {
      assert s == {};
    }
  }

  lemma Common(a: set<int>, b: set<int>) returns (k: int)
    requires a * b != {}
    ensures k in a && k in b
  {
    EmptyOrNot(a * b);
    k :| k in a * b;
  }

  lemma ZoneDataServed(e: Env, m: Time, now: Time, keys: Epoch, data: Epoch)
    requires SafeEnv(e, m, now) && CachedDnskey(e, m, now, keys) && CachedZone(e, m, now, data)
    ensures exists k :: k in data.zs && k in keys.pub
  {
    var s :| SignBase(e, m, s, now);
    var k := Common(data.zs, s);
    assert PubBy(e, m, k, now);
  }

  lemma ChainServed(e: Env, m: Time, now: Time, parent: Epoch, keys: Epoch)
    requires SafeEnv(e, m, now) && CachedDs(e, m, now, parent) && CachedDnskey(e, m, now, keys) && parent.ds != {}
    ensures exists k :: k in parent.ds && k in keys.pub && k in keys.ks
  {
    var c :| ChainBase(e, m, c, now);
    var k := Common(parent.ds, c);
    assert ChainOn(e, m, k, now);
  }

  lemma RolesServed(e: Env, m: Time, now: Time)
    requires EnvInv(e, now) && SafeEnv(e, m, now)
    ensures exists k :: k in e.keys && e.keys[k].active && e.keys[k].published && Flag(e.keys[k]) == SEP_FLAGS
    ensures exists z :: z in e.keys && e.keys[z].active && e.keys[z].published && z in e.cur.zs
  {
    var k :| ServesKsk(e, k);
    assert k in e.keys && e.keys[k].active && e.keys[k].published && Flag(e.keys[k]) == SEP_FLAGS;
    var s :| SignBase(e, m, s, now);
    var z := Common(e.cur.zs, s);
    assert PubBy(e, m, z, now);
    assert z in e.keys && e.keys[z].active && e.keys[z].published && z in e.cur.zs;
  }

  /** RFC 7583 section 3.2.1: whatever DNSKEY RRset and whatever zone data a resolver has
      cached, one of the keys that signed the data is in the RRset. */
  lemma ZoneDataContinuity(cfg: Config, w: World, actions: seq<Action>, zone: string, keys: Epoch, data: Epoch)
    requires FirstStart(cfg, w)
    requires var after := Run(cfg, w, actions);
             && zone in after.envs
             && CachedDnskey(after.envs[zone], cfg.margin, after.now, keys)
             && CachedZone(after.envs[zone], cfg.margin, after.now, data)
    ensures exists k :: k in data.zs && k in keys.pub
  {
    RunZone(cfg, w, actions, zone);
    var after := Run(cfg, w, actions);
    ZoneDataServed(after.envs[zone], cfg.margin, after.now, keys, data);
  }

  /** RFC 7583 section 3.3.1: whatever DS RRset and whatever DNSKEY RRset a resolver has
      cached, one key named by the former is in the latter and signs it. */
  lemma ParentChainContinuity(cfg: Config, w: World, actions: seq<Action>, zone: string, parent: Epoch, keys: Epoch)
    requires FirstStart(cfg, w)
    requires var after := Run(cfg, w, actions);
             && zone in after.envs && parent.ds != {}
             && CachedDs(after.envs[zone], cfg.margin, after.now, parent)
             && CachedDnskey(after.envs[zone], cfg.margin, after.now, keys)
    ensures exists k :: k in parent.ds && k in keys.pub && k in keys.ks
  {
    RunZone(cfg, w, actions, zone);
    var after := Run(cfg, w, actions);
    ChainServed(after.envs[zone], cfg.margin, after.now, parent, keys);
  }

  /** No zone ever loses its last active and published key of a role: one with key-signing
      flags remains, and one that signs zone data. */
  lemma RolesKept(cfg: Config, w: World, actions: seq<Action>, zone: string)
    requires FirstStart(cfg, w) && zone in Run(cfg, w, actions).envs
    ensures var e := Run(cfg, w, actions).envs[zone];
            && (exists k :: k in e.keys && e.keys[k].active && e.keys[k].published && Flag(e.keys[k]) == SEP_FLAGS)
            && (exists z :: z in e.keys && e.keys[z].active && e.keys[z].published && z in e.cur.zs)
  {
    RunZone(cfg, w, actions, zone);
    var after := Run(cfg, w, actions);
    RolesServed(after.envs[zone], cfg.margin, after.now);
  }

  // ---- calls ---------------------------------------------------------------------------

  /** One workflow instance creates at most one key per replacement slot and asks the
      registrar at most once, wherever the process stops, whichever response is lost and
      whatever Triggers slip in. An instance ends when the controller sees its completion: its
      update succeeds, or a restart finds it on file. Every call was rightful for the record
      that was on disk when it was made. */
  lemma CallsOnce(cfg: Config, w: World, actions: seq<Action>, id: WorkflowId, zskSlot: bool)
    requires Opened(cfg, w)
    ensures var trace := Run(cfg, w, actions).trace;
            && Creates(trace, id, zskSlot) <= 1 && Updates(trace, id) <= 1
            && AllRightful(cfg, trace)
  {
    OpenedInv(cfg, w);
    RunBooks(cfg, w, actions);
    var after := Run(cfg, w, actions);
    LoggedSound(cfg, after.now, after.mem);
    assert Accounted(after.trace, Lookup(after.mem, id)) && Lookup(after.mem, id).Id() == id;
  }

  /** Enrollment never creates, switches or deletes a key, and whoever switches or deletes
      one touches the recorded replacement or the recorded old key only, which differ. */
  lemma KeyCalls(cfg: Config, w: World, actions: seq<Action>, event: Event)
    requires Opened(cfg, w) && event in Run(cfg, w, actions).trace
    ensures event.Created? || event.Switched? || event.Deleted? ==> !event.w.kind.Enroll?
    ensures event.Switched? && event.on ==> event.key == SignerId(event.w) && event.key != event.w.oldKey
    ensures event.Switched? && !event.on ==> event.key == event.w.oldKey && event.key != event.w.newKey && event.key != 0
    ensures event.Deleted? ==> event.key == event.w.oldKey && event.key != event.w.newKey && event.key != 0
    ensures event.Updated? ==> event.key == event.w.newKey && event.key != 0 && event.w.reg.attemptedAt != UNSET
  {
    CallsOnce(cfg, w, actions, event.w.Id(), false);
    assert Rightful(cfg, event);
  }

  lemma {:induction false} SettleEnds(cfg: Config, now: Time, site: Site, script: seq<Beat>)
    requires SiteTidy(cfg, now, site) && Ended(site.mem, site.disk) == []
    ensures var s := Settle(cfg, now, site, script).0; Ended(s.mem, s.disk) == []
    decreases |script|
  {
    if script != [] && script[0].Slips? {
      var req := script[0].req;
      var next := Apply(cfg, now, TriggerEdit(req), site.mem);
      var after := Slipped(cfg, now, site, req);
      if next.Some? && !req.kind.Enroll? {
        LoggedSound(cfg, now, site.mem);
        EndedIs(cfg, now, TriggerEdit(req), site.mem, next.value);
        CommitTidy(cfg, now, site.mem, site.disk, site.trace, TriggerEdit(req), req.io, next.value);
        assert site.trace + Ends(TriggerEdit(req), req.io) == site.trace;
      }
      SettleEnds(cfg, now, after, script[1..]);
    }
  }

  lemma BlockOnlyCalls(cfg: Config, now: Time, site: Site, zone: string, kind: Kind, script: seq<Beat>)
    requires SiteTidy(cfg, now, site) && Ended(site.mem, site.disk) == []
    ensures var after := Perform(cfg, now, site, BlockOnly(zone, kind), script);
            after.trace == site.trace && after.env == site.env
  {
    Settled(cfg, now, site, BlockOnly(zone, kind), script);
    SettleEnv(cfg, now, site, script);
    SettleEnds(cfg, now, site, script);
    var (s, rest) := Settle(cfg, now, site, script);
    assert s.trace + [] == s.trace;
  }

  lemma CrowdedPlanCalls(cfg: Config, w: World, a: Action)
    requires BooksInv(cfg, w) && a.Reconciles? && a.zone.name in w.envs && w.mem == w.disk
    requires |ActiveKinds(w.mem, a.zone.name)| > 1
    ensures var todo := Reconcile(cfg, w.now, a.zone, w.mem, a.ev, a.pick);
            var after := Perform(cfg, w.now, SiteOf(w, a.zone.name), todo, a.script);
            after.trace == w.trace && after.env == w.envs[a.zone.name]
  {
    ReconcileShape(cfg, w.now, a.zone, w.mem, a.ev, a.pick);
    var active := ActiveKinds(w.mem, a.zone.name);
    BlockOnlyCalls(cfg, w.now, SiteOf(w, a.zone.name), a.zone.name, active[a.pick % |active|], a.script);
  }

  /** With two or more active workflows a reconciliation calls nobody and changes no zone. */
  lemma CrowdedZoneIsLeftAlone(cfg: Config, w: World, a: Action)
    requires BooksInv(cfg, w) && a.Reconciles? && a.zone.name in w.envs && Truthful(a.ev, w.envs[a.zone.name])
    requires |ActiveKinds(SaveTo(cfg, w, Boot(a.zone, a.ev.keys), a.boot).mem, a.zone.name)| > 1
    ensures ReconcileStep(cfg, w, a).trace == w.trace && ReconcileStep(cfg, w, a).envs == w.envs
  {
    var booted := SaveTo(cfg, w, Boot(a.zone, a.ev.keys), a.boot);
    ListedPositive(a.ev.keys, w.envs[a.zone.name], w.now);
    SaveOnward(cfg, w, Boot(a.zone, a.ev.keys), a.boot);
    SaveKeepsRest(cfg, w, Boot(a.zone, a.ev.keys), a.boot);
    if a.boot.Saved? {
      CrowdedPlanCalls(cfg, booted, a);
      assert booted.envs[a.zone.name := booted.envs[a.zone.name]] == booted.envs;
    }
  }

  // ---- records -------------------------------------------------------------------------

  lemma DiskLogged(cfg: Config, w: World)
    requires BooksInv(cfg, w)
    ensures Logged(cfg, w.now, w.mem) && Logged(cfg, w.now, w.disk)
  {
    ReloadTidy(cfg, w.now, w.mem, w.disk, w.trace);
  }

  /** Every record in memory and on disk is sound at every point of every run. */
  lemma RunSound(cfg: Config, w: World, actions: seq<Action>)
    requires Opened(cfg, w)
    ensures var after := Run(cfg, w, actions); StateSound(cfg, after.mem) && StateSound(cfg, after.disk)
  {
    OpenedInv(cfg, w);
    RunBooks(cfg, w, actions);
    var after := Run(cfg, w, actions);
    DiskLogged(cfg, after);
    LoggedSound(cfg, after.now, after.mem);
    LoggedSound(cfg, after.now, after.disk);
  }

  /** The file is as memory or exactly one checked update ahead of it, at every point of every
      run. */
  lemma FileOneAhead(cfg: Config, w: World, actions: seq<Action>)
    requires Opened(cfg, w)
    ensures var after := Run(cfg, w, actions); Ahead(cfg, after.now, after.mem, after.disk)
  {
    OpenedInv(cfg, w);
    RunBooks(cfg, w, actions);
  }

  /** The evidence a phase waits on is as old as it has to be. */
  predicate WaitOver(cfg: Config, w: Workflow, now: Time) {
    match w.phase
    case WaitPublish | EnrollWaitPublish =>
      w.evidenceAt != UNSET ==> now >= w.evidenceAt + Max(w.dnskeyTtl, cfg.minDnskeyWait) + cfg.margin
    case WaitParentRemove | EnrollWaitParent =>
      w.evidenceAt != UNSET ==> now >= w.evidenceAt + Max(w.dsTtl, cfg.minParentWait) + cfg.margin
    case WaitNewSignature | DeactivateOld =>
      && (w.evidenceAt != UNSET ==> now >= w.evidenceAt + w.zoneTtl + cfg.margin)
      && (w.signerAt != UNSET ==> now >= w.signerAt + w.zoneTtl + cfg.margin)
    case WaitRetire => now >= w.startedAt + w.zoneTtl + cfg.margin
    case _ => true
  }

  /** At no point of any run does a handler act before its recorded wait is over, so in
      particular the deadline re-check of an attested signer transition never fires early. */
  lemma NoHandlerActsEarly(cfg: Config, w: World, actions: seq<Action>, id: WorkflowId, zone: Zone, ev: Evidence)
    requires Opened(cfg, w) && PositiveIds(ev.keys)
    requires var after := Run(cfg, w, actions);
             Advance(cfg, after.now, zone, Lookup(after.mem, id), ev, after.mem.armedAt) != Rest
    ensures var after := Run(cfg, w, actions); WaitOver(cfg, Lookup(after.mem, id), after.now)
  {
    OpenedInv(cfg, w);
    RunBooks(cfg, w, actions);
    RunSound(cfg, w, actions);
    var after := Run(cfg, w, actions);
    assert Sound(cfg, Lookup(after.mem, id));
    AdvanceLegit(cfg, after.now, zone, Lookup(after.mem, id), ev, after.mem.armedAt);
  }

  /** From x to y no wait is brought forward while its evidence stands, and no phase but by a
      block is left before it is due; leaving a block forgets the evidence. */
  predicate WaitKept(now: Time, x: Workflow, y: Workflow) {
    && (x.Active() && !x.phase.Blocked? && y.phase == x.phase && y.evidenceAt == x.evidenceAt != UNSET ==> y.nextAt >= x.nextAt)
    && (x.Active() && !x.phase.Blocked? && y.phase != x.phase && !y.phase.Blocked? ==> x.nextAt <= now)
    && (x.phase.Blocked? && y.Active() && !y.phase.Blocked? ==>
          y.phase.WaitPublish? && y.evidenceAt == UNSET && y.nextAt == now)
  }

  /** An attestation starts a zone-TTL wait that is at least as long again. */
  predicate WaitRestarted(cfg: Config, now: Time, x: Workflow, y: Workflow) {
    y.evidenceAt == y.signerAt == now && y.zoneTtl >= x.zoneTtl && y.nextAt == now + y.zoneTtl + cfg.margin
  }

  /** Waits over every update of a run, on every record. */
  lemma WaitsOnlyGrow(cfg: Config, now: Time, e: Edit, s: State, t: State, id: WorkflowId)
    requires ValidConfig(cfg) && now > 0 && Logged(cfg, now, s) && Legal(cfg, now, e, s) && Apply(cfg, now, e, s) == Some(t)
    ensures WaitKept(now, Lookup(s, id), Lookup(t, id))
            || (e.Attest? && WaitRestarted(cfg, now, Lookup(s, id), Lookup(t, id)))
  {
    LoggedSound(cfg, now, s);
    var x := Lookup(s, id);
    assert x.Id() == id && Sound(cfg, x);
    if Target(e).Some? {
      WritesOne(cfg, now, e, s, t);
      if Target(e).value == id {
        WrittenWaits(cfg, now, e, s);
      }
    } else {
      BatchWaits(cfg, now, e, s, t, id);
    }
  }

  lemma WrittenWaits(cfg: Config, now: Time, e: Edit, s: State)
    requires ValidConfig(cfg) && now > 0 && StateSound(cfg, s) && Target(e).Some? && Legal(cfg, now, e, s)
    requires Apply(cfg, now, e, s).Some?
    ensures WaitKept(now, Lookup(s, Target(e).value), Written(now, e, s))
  {
    var x := Lookup(s, Target(e).value);
    assert x.Id() == Target(e).value;
    BackoffBounds(x.attempts + 1);
    if e.Begin? {
      assert !AnyActive(s, e.name);
      match e.kind case ZSK => case KSK => case Split => case Enroll =>
    } else if !e.Retry? && !e.Block? {
      assert RecordOf(RecordsOf(s, x.zone), x.kind) == x;
    }
  }

  lemma BatchWaits(cfg: Config, now: Time, e: Edit, s: State, t: State, id: WorkflowId)
    requires StateSound(cfg, s) && Target(e).None? && Legal(cfg, now, e, s) && Apply(cfg, now, e, s) == Some(t)
    ensures WaitKept(now, Lookup(s, id), Lookup(t, id))
            || (e.Attest? && WaitRestarted(cfg, now, Lookup(s, id), Lookup(t, id)))
  {
    match e
    case TriggerAll(kind, zones, idem, _) =>
      StartedEach(s, kind, zones, idem, now, id);
      TriggersIdle(cfg, now, e, s, id);
    case ResumeAll(items, _, _) => ResumedEach(s, items, now, id);
    case Arm(listing, _) => BaselinedEach(s, listing, now, id);
    case Boot(zone, keys) => BootRecords(cfg, s, zone, keys, now, id);
    case Complete(w) => CompletionDue(cfg, now, w, s, id);
    case _ =>
  }

  lemma CompletionDue(cfg: Config, now: Time, w: Workflow, s: State, id: WorkflowId)
    requires StateSound(cfg, s) && Works(now, s, w) && MayFinish(w)
    ensures WaitKept(now, Lookup(s, id), Lookup(CompleteState(cfg, s, w, now), id))
  {
    CompletedLookup(cfg, now, w, s, id);
    assert RecordOf(RecordsOf(s, w.zone), w.kind) == w;
    if w.kind.Enroll? && id.zone == w.zone && id != w.Id() {
      assert RecordOf(RecordsOf(s, w.zone), id.kind) == Lookup(s, id);
    }
  }

  lemma TriggersIdle(cfg: Config, now: Time, e: Edit, s: State, id: WorkflowId)
    requires Apply(cfg, now, e, s).Some? && e.TriggerAll?
    ensures e.idem !in s.idempotency && id.zone in e.zones ==> !Lookup(s, id).Active()
  {
    if e.idem !in s.idempotency && id.zone in e.zones {
      assert !AnyActive(s, id.zone);
      match id.kind case ZSK => case KSK => case Split => case Enroll =>
    }
  }

  // ---- enrollment ----------------------------------------------------------------------

  /** The circuit breaker holds in memory and on disk at every point of every run. */
  lemma RunBreaker(cfg: Config, w: World, actions: seq<Action>, t: Time)
    requires Opened(cfg, w)
    ensures var after := Run(cfg, w, actions);
            && |Admitted(after.mem, t)| <= cfg.maxNewPerDay && |Running(after.mem)| <= cfg.maxPending
            && |Admitted(after.disk, t)| <= cfg.maxNewPerDay && |Running(after.disk)| <= cfg.maxPending
  {
    OpenedInv(cfg, w);
    RunBooks(cfg, w, actions);
    var after := Run(cfg, w, actions);
    DiskLogged(cfg, after);
    BreakerHolds(cfg, after.now, after.mem, t);
    BreakerHolds(cfg, after.now, after.disk, t);
  }

  /** No arming that took effect in this run listed the zone as DNSSEC-enabled. */
  ghost predicate NeverListed(cfg: Config, w: World, actions: seq<Action>, name: string) {
    forall n: nat, m: nat, zone | TookEffect(cfg, w, actions, n, m) && ListedSigned(actions[n], zone) :: zone.name != name
  }

  /** Every enrollment that asked the registrar did so under an arming of this very run, and
      for a zone that the arming in effect had not listed as DNSSEC-enabled. */
  lemma EnrollmentSparesListedZones(cfg: Config, w: World, actions: seq<Action>, event: Event)
    returns (n: nat, m: nat)
    requires Opened(cfg, w) && event in Run(cfg, w, actions).trace && event.Updated? && event.w.kind.Enroll?
    ensures TookEffect(cfg, w, actions, n, m) && NeverListed(cfg, w, actions, event.w.zone)
  {
    n, m := AskedUnderArming(cfg, w, actions, event);
    forall i: nat, j: nat, zone | TookEffect(cfg, w, actions, i, j) && ListedSigned(actions[i], zone)
      ensures zone.name != event.w.zone
    {
      ListedZonesSpared(cfg, w, actions, i, j, zone, event);
    }
  }

  /** A zone signed just before it is discovered: its unsigned data has left the caches when
      enrollment asks the registrar if the zone TTL is no longer than the discovery grace and
      the publication wait together, and for the quickest enrollment only then. */
  lemma NewlySignedZone(cfg: Config, w: World, actions: seq<Action>, event: Event, unsigned: Epoch)
    requires Opened(cfg, w) && event in Run(cfg, w, actions).trace && event.Updated? && event.w.kind.Enroll?
    requires unsigned.until <= event.w.discoveredAt
    ensures var x := event.w;
            var gone := unsigned.until + unsigned.zoneTtl + cfg.margin <= x.reg.attemptedAt;
            var short := unsigned.zoneTtl <= cfg.discoveryGrace + Max(x.dnskeyTtl, cfg.minDnskeyWait);
            && (short ==> gone)
            && (unsigned.until == x.discoveredAt && x.reg.attemptedAt == Patience(cfg, x) ==> (gone <==> short))
  {
    CallsOnce(cfg, w, actions, event.w.Id(), false);
    assert Rightful(cfg, event);
  }

  // ---- admission -----------------------------------------------------------------------

  /** Starting a workflow, scheduled or on request, is all-or-nothing and happens only in
      zones without an active one, which then have exactly one; other zones are untouched. */
  lemma StartAdmitsOne(cfg: Config, now: Time, s: State, t: State, name: string, kind: Kind)
    requires Apply(cfg, now, Begin(name, kind), s) == Some(t)
    ensures !AnyActive(s, name) && OnlyActive(RecordsOf(t, name), kind)
    ensures forall id: WorkflowId | id.zone != name :: Lookup(t, id) == Lookup(s, id)
  {
    var r, q := RecordsOf(s, name), RecordsOf(t, name);
    assert RecordOf(q, kind).Active();
    forall other: Kind | other != kind
      ensures !RecordOf(q, other).Active()
    {
      assert RecordOf(q, other) == RecordOf(r, other);
    }
  }

  /** At every point of every run, in memory and on file, at most one of a zone's rotations is
      active: whatever runs beside it is an enrollment. */
  lemma OneRotationPerZone(cfg: Config, w: World, actions: seq<Action>, zone: string)
    requires Opened(cfg, w)
    ensures var after := Run(cfg, w, actions); SoleRotation(after.mem, zone) && SoleRotation(after.disk, zone)
  {
    OpenedInv(cfg, w);
    RunBooks(cfg, w, actions);
    var after := Run(cfg, w, actions);
    DiskLogged(cfg, after);
    OneRotation(cfg, after.now, after.mem, zone);
    OneRotation(cfg, after.now, after.disk, zone);
  }

  lemma TriggerAdmitsOne(cfg: Config, now: Time, s: State, t: State, req: Request, name: string)
    requires Apply(cfg, now, TriggerEdit(req), s) == Some(t) && req.idem !in s.idempotency
    ensures name in req.zones ==> !AnyActive(s, name) && OnlyActive(RecordsOf(t, name), req.kind)
    ensures name !in req.zones ==> forall kind: Kind :: Lookup(t, WorkflowId(name, kind)) == Lookup(s, WorkflowId(name, kind))
  {
    TriggerZone(cfg, now, s, t, req, name);
    if name in req.zones {
      var q := RecordsOf(t, name);
      assert RecordOf(q, req.kind).Active();
      forall other: Kind | other != req.kind
        ensures !RecordOf(q, other).Active()
      {
        assert RecordOf(q, other) == Lookup(t, WorkflowId(name, other)) == Lookup(s, WorkflowId(name, other));
      }
    }
  }

  /** Bootstrap alone may put a second workflow beside an active one: exactly when it first
      discovers the zone and the zone is not a CSK zone. */
  lemma BootstrapAdmission(cfg: Config, s: State, zone: Zone, keys: seq<Key>, now: Time)
    ensures var u := EnsureRecords(s, zone.name, KeyScheme(keys), now);
            |ActiveKinds(Bootstrap(cfg, s, zone, keys, now), zone.name)|
            == |ActiveKinds(s, zone.name)| + (if Discovers(cfg, u, zone) && !KeyScheme(keys).CskScheme? then 1 else 0)
  {
    var t := Bootstrap(cfg, s, zone, keys, now);
    var u := EnsureRecords(s, zone.name, KeyScheme(keys), now);
    KindsCounted(s, zone.name);
    KindsCounted(t, zone.name);
    forall kind: Kind
      ensures !kind.Enroll? ==> Lookup(t, WorkflowId(zone.name, kind)).Active() == Lookup(s, WorkflowId(zone.name, kind)).Active()
    {
      BootRecords(cfg, s, zone, keys, now, WorkflowId(zone.name, kind));
    }
    EnsuredRecords(s, zone.name, KeyScheme(keys), now, WorkflowId(zone.name, Enroll));
    BootRecords(cfg, s, zone, keys, now, WorkflowId(zone.name, Enroll));
    FirstId(cfg, u, zone, keys, now);
  }

  /** So a zone can have two active workflows at once. */
  lemma TwoActiveWorkflows(cfg: Config, s: State, zone: Zone, keys: seq<Key>, now: Time)
    requires OnlyActive(RecordsOf(s, zone.name), ZSK) && KeyScheme(keys).SplitScheme?
    requires Discovers(cfg, s, zone)
    ensures |ActiveKinds(Bootstrap(cfg, s, zone, keys, now), zone.name)| == 2
  {
    BootstrapAdmission(cfg, s, zone, keys, now);
    KindsCounted(s, zone.name);
    OthersIdle(RecordsOf(s, zone.name), ZSK);
    assert RecordOf(RecordsOf(s, zone.name), ZSK) == RecordsOf(s, zone.name).zsk;
    EnsuredRecords(s, zone.name, SplitScheme, now, WorkflowId(zone.name, Enroll));
    EnsuredRecords(s, zone.name, SplitScheme, now, WorkflowId(zone.name, ZSK));
  }

  // ---- the assumptions can be met ------------------------------------------------------------

  function PlainKey(id: int, keyType: KeyType): Key {
    Key(id, keyType, true, true, Some(KeyData(if keyType.ZskType? then ZONE_FLAGS else SEP_FLAGS, 3, 13, "key")), "ECDSAP256SHA256")
  }

  /** A signed zone with one KSK, in the parent's DS RRset, and one ZSK. */
  function PlainZone(): Env {
    Env(map[1 := PlainKey(1, KskType), 2 := PlainKey(2, ZskType)], {1, 2}, Remote(true, [1]), {},
        Epoch({1, 2}, {2}, {1}, {1}, 3600, DAY, DAY, UNSET), [])
  }

  lemma PlainZoneSteady(m: Time, now: Time)
    ensures EnvInv(PlainZone(), now) && Steady(PlainZone(), m, now)
  {
    var e := PlainZone();
    assert e.keys.Keys == {1, 2};
    assert Active(e.keys) == {1, 2} && Published(e.keys) == {1, 2};
    assert ActiveWith(e.keys, ZONE_FLAGS) == {2} && ActiveWith(e.keys, SEP_FLAGS) == {1};
    assert Claim(e.remote) == {1};
    assert 2 in e.cur.zs * {2};
    assert SignBase(e, m, {2}, now) && ChainOn(e, m, 1, now);
    assert SteadyAt(e, m, 2, 1, now);
  }

  /** A zone signed at `since` that the parent does not know yet. */
  function NewZone(since: Time, dnskeyTtl: int, zoneTtl: int): Env {
    var cur := Epoch({1, 2}, {2}, {1}, {}, dnskeyTtl, zoneTtl, 0, UNSET);
    PlainZone().(remote := Remote(false, []), cur := cur, past := [Epoch({}, {}, {}, {}, dnskeyTtl, zoneTtl, 0, since)])
  }

  /** It may take part in a first start exactly once its unsigned content is out of the caches. */
  lemma NewZoneSteady(since: Time, dnskeyTtl: int, zoneTtl: int, m: Time, now: Time)
    ensures Steady(NewZone(since, dnskeyTtl, zoneTtl), m, now) <==> now >= since + Max(dnskeyTtl, zoneTtl) + m
  {
    var e := NewZone(since, dnskeyTtl, zoneTtl);
    assert Active(e.keys) == {1, 2} && Claim(e.remote) == {};
    assert e.past[0] in e.past && forall v <- e.past :: v == e.past[0];
    if now >= since + Max(dnskeyTtl, zoneTtl) + m {
      assert 2 in e.cur.zs * {2};
      assert SignBase(e, m, {2}, now) && Bare(e, m, now) && Trust(e, m, 1, now);
      assert SteadyAt(e, m, 2, 1, now);
    }
    if Steady(e, m, now) {
      var z, k :| SteadyAt(e, m, z, k, now);
      assert z in {z} && PubBy(e, m, z, now) && ZsBy(e, m, {z}, now);
      assert e.past[0].zs * {z} == {};
    }
  }

  /** Any valid configuration has runs that start with signed zones. */
  lemma RunsExist(cfg: Config, names: set<string>, now: Time) returns (w: World)
    requires ValidConfig(cfg) && now > 0
    ensures FirstStart(cfg, w) && w.envs.Keys == names
  {
    PlainZoneSteady(cfg.margin, now);
    w := World(now, EMPTY_STATE, EMPTY_STATE, map n <- names :: PlainZone(), []);
  }
}
