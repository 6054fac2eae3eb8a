/** The outside world over time, and runs of the controller in it. DNS content is kept as
    epochs: what the zone and its parent serve now, and every earlier content with the
    moment it was replaced. Propagation to secondaries takes less than the configured
    margin, so a cache may hold an earlier content up to its TTL plus that margin after
    the replacement. */
module World {
  import opened Model
  import opened Inventory
  import opened Edits
  import opened Plans

  // ---- the zone and its parent ----------------------------------------------------

  /** Key ids published in the DNSKEY RRset, signing zone data, signing the DNSKEY RRset,
      and named by the parent's DS RRset; and bounds on the TTLs served. */
  datatype Epoch = Epoch(
    pub: set<int>, zs: set<int>, ks: set<int>, ds: set<int>,
    dnskeyTtl: int, zoneTtl: int, dsTtl: int, until: Time)

  /** One zone at PowerDNS, the registrar and the parent. `used` are all key ids ever
      issued; `pending` is material the registrar accepted but
      has not applied. */
  datatype Env = Env(
    keys: map<int, Key>, used: set<int>, remote: Remote, pending: set<int>,
    cur: Epoch, past: seq<Epoch>)

  function Flag(k: Key): int { if k.data.Some? then k.data.value.flags else 0 }

  function Active(keys: map<int, Key>): set<int> { set i <- keys | keys[i].active }

  function ActiveWith(keys: map<int, Key>, flags: int): set<int> {
    set i <- keys | keys[i].active && Flag(keys[i]) == flags
  }

  function Published(keys: map<int, Key>): set<int> { set i <- keys | keys[i].published }

  /** PowerDNS labels a key by its flags, or `csk` while the other role has no active key. */
  predicate Labelled(k: Key) {
    (k.keyType.KskType? ==> Flag(k) == SEP_FLAGS) && (k.keyType.ZskType? ==> Flag(k) == ZONE_FLAGS)
  }

  /** Active zone-signing keys sign zone data; without one every active key does. Whether
      an active key-signing key also signs zone data beside them depends on the version. */
  predicate SignsZone(keys: map<int, Key>, zs: set<int>) {
    && zs <= Active(keys)
    && ActiveWith(keys, ZONE_FLAGS) <= zs
    && (ActiveWith(keys, ZONE_FLAGS) == {} ==> zs == Active(keys))
  }

  predicate SignsDnskey(keys: map<int, Key>, ks: set<int>) {
    ActiveWith(keys, SEP_FLAGS) <= ks <= Active(keys)
  }

  function Claim(remote: Remote): set<int> {
    if remote.enabled then set id <- remote.material else {}
  }

  /** New content from now on; the previous content becomes a closed epoch. */
  function Evolve(e: Env, now: Time, cur: Epoch): Env {
    e.(past := e.past + [e.cur.(until := now)], cur := cur)
  }

  /** A key operation PowerDNS carried out, with the signer sets that result. */
  function Rekeyed(e: Env, now: Time, keys: map<int, Key>, zs: set<int>, ks: set<int>): Env {
    Evolve(e, now, e.cur.(pub := Published(keys), zs := zs, ks := ks)).(keys := keys, used := e.used + keys.Keys)
  }

  // ---- one reconciliation, cut anywhere -------------------------------------------

  /** What one micro-step meets: how far a store update got, whether an external write was
      committed and whether its response arrived, and what the write resulted in. */
  datatype Io = Saved | NotSaved | SavedUnseen
  datatype Outcome = Outcome(io: Io, committed: bool, seen: bool, key: Key, job: Job, zs: set<int>, ks: set<int>)

  /** A Trigger call, which does not wait for the controller's mutex. */
  datatype Request = Request(kind: Kind, zones: seq<string>, lists: map<string, seq<Key>>, idem: string, request: string, io: Io)

  /** What comes next in a reconciliation: its own next step meets an outcome, or a Trigger
      slips in before it. */
  datatype Beat = Meets(outcome: Outcome) | Slips(req: Request)

  /** An external write together with the workflow record that was on disk when it was
      made, or the end of a workflow instance as the controller saw it. */
  datatype Event =
    | Created(w: Workflow, zskSlot: bool)
    | Switched(w: Workflow, key: int, on: bool)
    | Deleted(w: Workflow, key: int)
    | Updated(w: Workflow, key: int)
    | Finished(w: Workflow)

  /** The controller and one zone: memory, disk, the zone's world and the calls made. */
  datatype Site = Site(mem: State, disk: State, env: Env, trace: seq<Event>)

  function Commit(site: Site, io: Io, s: State): Site {
    match io
    case Saved => site.(mem := s, disk := s)
    case NotSaved => site
    case SavedUnseen => site.(disk := s)
  }

  /** Memory still holds the workflow as active, the file holds it as completed. */
  predicate Outdone(mem: State, disk: State, id: WorkflowId) {
    Lookup(mem, id).Active() && !Lookup(disk, id).Active() && !Lookup(disk, id).disposition.Ineligible?
  }

  /** Reloading the file ends the instance whose completion only the file had. The file is at
      most one update ahead of memory, so there is at most one (Calls.OneOutdone). */
  ghost function Ended(mem: State, disk: State): seq<Event> {
    if exists id :: Outdone(mem, disk, id) then
      var id :| Outdone(mem, disk, id);
      [Finished(Lookup(mem, id))]
    else []
  }

  /** A restart reloads what is on disk. */
  ghost function Crash(site: Site): Site {
    site.(mem := site.disk, trace := site.trace + Ended(site.mem, site.disk))
  }

  /** A completion that the controller saw succeed ends the workflow instance. */
  function Ends(e: Edit, io: Io): seq<Event> {
    if e.Complete? && io.Saved? then [Finished(e.w)] else []
  }

  predicate CreateLegal(e: Env, k: Key, role: KeyType, active: bool) {
    && k.id > 0 && k.id !in e.used
    && k.active == active && k.published && Labelled(k)
    && Flag(k) == (if role.ZskType? then ZONE_FLAGS else SEP_FLAGS)
  }

  /** A key operation, None when it was not carried out. */
  function TryRekey(e: Env, now: Time, keys: map<int, Key>, o: Outcome): Option<Env> {
    if o.committed && SignsZone(keys, o.zs) && SignsDnskey(keys, o.ks) then Some(Rekeyed(e, now, keys, o.zs, o.ks))
    else None
  }

  function CreateCall(e: Env, now: Time, role: KeyType, active: bool, o: Outcome): Option<Env> {
    if CreateLegal(e, o.key, role, active) then TryRekey(e, now, e.keys[o.key.id := o.key], o) else None
  }

  function SetCall(e: Env, now: Time, id: int, on: bool, o: Outcome): Option<Env> {
    if id in e.keys then TryRekey(e, now, e.keys[id := e.keys[id].(active := on, published := true)], o) else None
  }

  function DeleteCall(e: Env, now: Time, id: int, o: Outcome): Option<Env> {
    TryRekey(e, now, e.keys - {id}, o)
  }

  function UpdateCall(e: Env, id: int, o: Outcome): Option<Env> {
    if o.committed then Some(e.(pending := {id})) else None
  }

  function OnDisk(site: Site, w: Workflow): Workflow { Lookup(site.disk, w.Id()) }

  function Called(site: Site, env: Option<Env>, event: Event): Site {
    site.(env := if env.Some? then env.value else site.env, trace := site.trace + [event])
  }

  function TriggerEdit(req: Request): Edit { TriggerAll(req.kind, req.zones, req.idem, req.request) }

  /** A Trigger carried out; the control server lets no enroll kind through. */
  function Slipped(cfg: Config, now: Time, site: Site, req: Request): Site {
    var next := Apply(cfg, now, TriggerEdit(req), site.mem);
    if req.kind.Enroll? || next.None? then site else Commit(site, req.io, next.value)
  }

  /** One step of a plan, and what is left to do after it. */
  function Meet(cfg: Config, now: Time, site: Site, todo: Todo, o: Outcome): (Site, Todo) {
    match todo
    case Rest => (site, Rest)
    case Persist(edit, ok, fail) =>
      var next := Apply(cfg, now, edit, site.mem);
      if next.None? then (site, fail)
      else (Commit(site, o.io, next.value).(trace := site.trace + Ends(edit, o.io)), if o.io.Saved? then ok else fail)
    case Create(w, role, algorithm, active, zskSlot) =>
      var env := CreateCall(site.env, now, role, active, o);
      var reply := if o.seen && env.Some? then Some(o.key) else None;
      (Called(site, env, Created(OnDisk(site, w), zskSlot)), AfterCreate(cfg, now, w, role, algorithm, active, zskSlot, reply))
    case Set(w, key, on, ok) =>
      var env := SetCall(site.env, now, key, on, o);
      (Called(site, env, Switched(OnDisk(site, w), key, on)), if o.seen && env.Some? then ok else Fail(w))
    case Delete(w, key, ok) =>
      var env := DeleteCall(site.env, now, key, o);
      (Called(site, env, Deleted(OnDisk(site, w), key)), if o.seen && env.Some? then ok else Fail(w))
    case Update(w, key) =>
      var env := UpdateCall(site.env, key, o);
      var reply := if o.seen && env.Some? then Some(o.job) else None;
      (Called(site, env, Updated(OnDisk(site, w), key)), AfterUpdate(now, w, reply))
  }

  /** Carries out a plan against a script. A script that ends before the plan does is a crash
      at that point. */
  ghost function Perform(cfg: Config, now: Time, site: Site, todo: Todo, script: seq<Beat>): Site
    decreases |script|
  {
    if todo.Rest? then site
    else if script == [] then Crash(site)
    else match script[0]
      case Slips(req) => Perform(cfg, now, Slipped(cfg, now, site, req), todo, script[1..])
      case Meets(o) =>
        var step := Meet(cfg, now, site, todo, o);
        Perform(cfg, now, step.0, step.1, script[1..])
  }

  // ---- runs -----------------------------------------------------------------------

  datatype Action =
    | Reconciles(zone: Zone, ev: Evidence, boot: Io, pick: nat, script: seq<Beat>)
    | Triggers(req: Request)
    | Resumes(zones: seq<string>, evs: map<string, Evidence>, idem: string, request: string, io: Io)
    | Attests(name: string, ev: Evidence, idem: string, request: string, io: Io)
    | Arms(listing: seq<Zone>, idem: string, io: Io)
    | Sweeps(name: string, io: Io)
    | Housekeeps(edit: Edit, io: Io)
    | Restarts
    | Waits(until: Time)
    | Shifts(name: string, shift: Shift)

  /** What happens to a zone without the controller. */
  datatype Shift =
    | RegistrarApplies(key: int)
    | ParentApplies
    | RaisesTtl(dnskeyTtl: int, zoneTtl: int, dsTtl: int)
    | Relabels(labels: map<int, KeyType>)

  datatype World = World(now: Time, mem: State, disk: State, envs: map<string, Env>, trace: seq<Event>)

  /** A complete listing of the live keys, in some order. */
  predicate Lists(listed: seq<Key>, keys: map<int, Key>) {
    && (forall k <- listed :: k.id in keys && keys[k.id] == k)
    && (forall i <- keys :: keys[i] in listed)
    && DistinctIds(listed)
  }

  /** The observer reports what is served, and TTLs no smaller than any served so far. */
  predicate Truthful(ev: Evidence, e: Env) {
    && Lists(ev.keys, e.keys)
    && (ev.dnskey.Some? ==> ev.dnskey.value.ids == e.cur.pub && ev.dnskey.value.ttl >= e.cur.dnskeyTtl)
    && (ev.authDnskey.Some? ==> ev.authDnskey.value.ids == e.cur.pub && ev.authDnskey.value.ttl >= e.cur.dnskeyTtl)
    && ev.dnskeySigned <= e.cur.ks && ev.authDnskeySigned <= e.cur.ks
    && ev.zoneSigned <= e.cur.zs && ev.authZoneSigned <= e.cur.zs
    && (forall k <- ev.authDs :: e.cur.ds == {k} && ev.authDs[k] >= e.cur.dsTtl)
    && (ev.noDs ==> e.cur.ds == {})
    && (ev.remote.Some? ==> ev.remote.value == e.remote)
    && (ev.zoneTtls.Some? ==> MaxTtl(ev.zoneTtls.value) >= e.cur.zoneTtl)
  }

  /** What Trigger checks before its update, for kinds the control server lets through. */
  predicate TriggerReady(req: Request, envs: map<string, Env>) {
    && !req.kind.Enroll?
    && forall z <- req.zones ::
         && z in envs && z in req.lists && Lists(req.lists[z], envs[z].keys)
         && KeyScheme(req.lists[z]) == (if req.kind.Split? then CskScheme else SplitScheme)
  }

  predicate Concurrent(script: seq<Beat>, envs: map<string, Env>) {
    forall b <- script | b.Slips? :: TriggerReady(b.req, envs)
  }

  predicate NeverRegistered(r: Registration) {
    r.attemptedAt == UNSET && r.jobId == 0 && r.ctid.NoCtid? && r.stid == "" && r.jobStatus.NoStatus?
  }

  /** What Resume re-proves for each zone before its update. */
  predicate ResumeReady(w: Workflow, ev: Evidence) {
    && w.phase.Blocked? && w.parentMode.Initial? && DistinctSplitIds(w) && NeverRegistered(w.reg)
    && PrepublishInventory(ev.keys, w)
    && ev.remote.Some? && Empty(ev.remote.value) && ev.noDs
  }

  function SplitRecords(s: State, zones: seq<string>): seq<Workflow> {
    seq(|zones|, i requires 0 <= i < |zones| => Lookup(s, WorkflowId(zones[i], Split)))
  }

  /** What ReconcileSplitSignerTransition proves before its update. */
  predicate AttestReady(cfg: Config, w: Workflow, ev: Evidence) {
    && w.phase.WaitNewSignature? && w.parentMode.Initial? && DistinctSplitIds(w)
    && w.reg.attemptedAt != UNSET && !w.reg.ctid.NoCtid? && w.signerAt == UNSET
    && SignerEvidence(cfg, w, ev).Some?
  }

  function SaveTo(cfg: Config, w: World, edit: Edit, io: Io): World {
    var next := Apply(cfg, w.now, edit, w.mem);
    if next.None? then w
    else match io
      case Saved => w.(mem := next.value, disk := next.value)
      case NotSaved => w
      case SavedUnseen => w.(disk := next.value)
  }

  function SiteOf(w: World, zone: string): Site
    requires zone in w.envs
  {
    Site(w.mem, w.disk, w.envs[zone], w.trace)
  }

  function WithSite(w: World, zone: string, site: Site): World {
    w.(mem := site.mem, disk := site.disk, envs := w.envs[zone := site.env], trace := site.trace)
  }

  /** One reconciliation: bootstrap, the snapshot, and the plan with the Triggers that slip in. */
  ghost function ReconcileStep(cfg: Config, w: World, a: Action): World
    requires a.Reconciles? && a.zone.name in w.envs
  {
    var booted := SaveTo(cfg, w, Boot(a.zone, a.ev.keys), a.boot);
    if !a.boot.Saved? then booted
    else
      var todo := Reconcile(cfg, w.now, a.zone, booted.mem, a.ev, a.pick);
      WithSite(booted, a.zone.name, Perform(cfg, w.now, SiteOf(booted, a.zone.name), todo, a.script))
  }

  function Outside(w: World, name: string, e: Env): World { w.(envs := w.envs[name := e]) }

  /** The outbox loop drops what was delivered long ago and records what it sent. */
  predicate HousekeepReady(cfg: Config, w: World, edit: Edit) {
    edit.Deliver? || (edit.Expire? && AllExpired(cfg, w.mem, edit.ids, w.now))
  }

  /** The update an action amounts to that is not a reconciliation; None when its conditions
      do not hold. */
  function Demand(cfg: Config, w: World, a: Action): Option<Edit> {
    match a
    case Triggers(req) => if TriggerReady(req, w.envs) then Some(TriggerEdit(req)) else None
    case Resumes(zones, evs, idem, request, io) =>
      if forall z <- zones :: z in w.envs && z in evs && Truthful(evs[z], w.envs[z])
                              && ResumeReady(Lookup(w.mem, WorkflowId(z, Split)), evs[z])
      then Some(ResumeAll(SplitRecords(w.mem, zones), idem, request)) else None
    case Attests(name, ev, idem, request, io) =>
      var x := Lookup(w.mem, WorkflowId(name, Split));
      if name in w.envs && Truthful(ev, w.envs[name]) && AttestReady(cfg, x, ev)
      then Some(Attest(x, Max(x.zoneTtl, SignerEvidence(cfg, x, ev).value), idem, request)) else None
    case Arms(listing, idem, io) => Some(Arm(listing, idem))
    case Sweeps(name, io) =>
      if Lookup(w.mem, WorkflowId(name, Enroll)).Active() then Some(Block(WorkflowId(name, Enroll))) else None
    case Housekeeps(edit, io) => if HousekeepReady(cfg, w, edit) then Some(edit) else None
    case _ => None
  }

  /** How far that update gets. */
  function Reach(a: Action): Io {
    match a
    case Triggers(req) => req.io
    case Resumes(_, _, _, _, io) => io
    case Attests(_, _, _, _, io) => io
    case Arms(_, _, io) => io
    case Sweeps(_, io) => io
    case Housekeeps(_, io) => io
    case _ => NotSaved
  }

  /** One step of a run. An action whose conditions do not hold changes nothing. */
  ghost function Next(cfg: Config, w: World, a: Action): World {
    match a
    case Reconciles(zone, ev, _, _, script) =>
      if zone.name in w.envs && Truthful(ev, w.envs[zone.name]) && Concurrent(script, w.envs) then ReconcileStep(cfg, w, a) else w
    case Restarts => w.(mem := w.disk, trace := w.trace + Ended(w.mem, w.disk))
    case Waits(until) => if until >= w.now then w.(now := until) else w
    case Shifts(name, shift) => if name in w.envs then Outside(w, name, Shifted(w.envs[name], w.now, shift)) else w
    case _ => var edit := Demand(cfg, w, a); if edit.Some? then SaveTo(cfg, w, edit.value, Reach(a)) else w
  }

  function Shifted(e: Env, now: Time, shift: Shift): Env {
    match shift
    case RegistrarApplies(key) => if key in e.pending then Applied(e, key) else e
    case ParentApplies => Evolve(e, now, e.cur.(ds := Claim(e.remote)))
    case RaisesTtl(dnskeyTtl, zoneTtl, dsTtl) =>
      e.(cur := e.cur.(dnskeyTtl := Max(e.cur.dnskeyTtl, dnskeyTtl), zoneTtl := Max(e.cur.zoneTtl, zoneTtl),
                       dsTtl := Max(e.cur.dsTtl, dsTtl)))
    case Relabels(labels) => Relabelled(e, labels)
  }

  /** The registrar carries out an accepted change, whenever it gets to it. */
  function Applied(e: Env, key: int): Env {
    e.(remote := Remote(true, [key]), pending := e.pending - {key})
  }

  function Relabelled(e: Env, labels: map<int, KeyType>): Env {
    var keys := map i <- e.keys :: if i in labels then e.keys[i].(keyType := labels[i]) else e.keys[i];
    if forall i <- keys :: Labelled(keys[i]) then e.(keys := keys) else e
  }

  ghost function Run(cfg: Config, w: World, actions: seq<Action>): World {
    if actions == [] then w
    else Next(cfg, Run(cfg, w, actions[..|actions| - 1]), actions[|actions| - 1])
  }
}
