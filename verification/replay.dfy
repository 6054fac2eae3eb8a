/** Idempotency keys over whole runs: what is answered under a key stays answered, with one
    exception in the code. */
module Replays {
  import opened Model
  import opened Inventory
  import opened Edits
  import opened Plans
  import opened World
  import opened Races
  import opened Logs
  import opened Calls
  import opened Bookkeeping
  import opened Control
  import Enrollment
  import Arming

  lemma {:induction false} StartedKeys(s: State, kind: Kind, zones: seq<string>, idem: string, now: Time)
    ensures StartAll(s, kind, zones, idem, now).idempotency == s.idempotency
  {
    if zones != [] {
      StartedKeys(s, kind, zones[..|zones| - 1], idem, now);
    }
  }

  lemma {:induction false} ResumedKeys(s: State, items: seq<Workflow>, now: Time)
    ensures ResumeEach(s, items, now).idempotency == s.idempotency
  {
    if items != [] {
      ResumedKeys(s, items[..|items| - 1], now);
    }
  }

  lemma {:induction false} BaselinedKeys(s: State, zones: seq<Zone>, now: Time)
    ensures BaselineEach(s, zones, now).idempotency == s.idempotency
  {
    if zones != [] {
      BaselinedKeys(s, zones[..|zones| - 1], now);
    }
  }

  /** Arming does not look again whether its key has been used since its snapshot. */
  predicate TakesOver(e: Edit, s: State, idem: string)
    requires idem in s.idempotency
  {
    e.Arm? && e.idem == idem && s.idempotency[idem] != ARM_PRINT
  }

  /** No update removes a key, and a key keeps its fingerprint exactly unless arming takes it
      over. */
  lemma EditKeys(cfg: Config, now: Time, e: Edit, s: State, t: State, idem: string)
    requires Apply(cfg, now, e, s) == Some(t) && idem in s.idempotency
    ensures idem in t.idempotency
    ensures t.idempotency[idem] == s.idempotency[idem] <==> !TakesOver(e, s, idem)
  {
    match e
    case Boot(zone, keys) => EnsuredRecords(s, zone.name, KeyScheme(keys), now, WorkflowId(zone.name, ZSK));
    case TriggerAll(kind, zones, key, _) => StartedKeys(s, kind, zones, key, now);
    case ResumeAll(items, _, _) => ResumedKeys(s, items, now);
    case Arm(listing, _) => BaselinedKeys(s, listing, now);
    case _ =>
  }

  /** The key still stands for its request, or arming has taken it over since. */
  predicate Stands(s: State, t: State, idem: string)
    requires idem in s.idempotency
  {
    && idem in t.idempotency
    && (t.idempotency[idem] == s.idempotency[idem]
        || (t.idempotency[idem] == ARM_PRINT && s.armedAt == UNSET && t.armedAt != UNSET))
  }

  lemma StepsKeys(cfg: Config, now: Time, s: State, t: State, idem: string)
    requires Steps(cfg, now, s, t) && idem in s.idempotency
    ensures Stands(s, t, idem)
  {
    var e, at: Time :| 0 < at <= now && Logged(cfg, at, s) && Legal(cfg, at, e, s) && Apply(cfg, at, e, s) == Some(t);
    EditKeys(cfg, at, e, s, t, idem);
    Enrollment.ArmedStays(cfg, at, e, s, t);
  }

  lemma {:induction false} ChainKeys(cfg: Config, now: Time, chain: seq<State>, n: nat, idem: string)
    requires IsChain(cfg, now, chain) && n < |chain| && idem in chain[0].idempotency
    ensures Stands(chain[0], chain[n], idem)
    ensures chain[0].armedAt != UNSET ==> chain[n].armedAt != UNSET
  {
    if n > 0 {
      ChainKeys(cfg, now, chain, n - 1, idem);
      assert Steps(cfg, now, chain[n - 1], chain[n - 1 + 1]);
      StepsKeys(cfg, now, chain[n - 1], chain[n], idem);
      if chain[n - 1].armedAt != UNSET {
        LeadsStep(cfg, now, chain[n - 1], chain[n]);
        Arming.LeadsArmed(cfg, now, chain[n - 1], chain[n]);
      }
    }
  }

  /** At every later point of a run a key that memory held stands in memory and on file. */
  lemma KeysStand(cfg: Config, w: World, actions: seq<Action>, n: nat, idem: string)
    requires Opened(cfg, w) && n <= |actions| && idem in Run(cfg, w, actions[..n]).mem.idempotency
    ensures Stands(Run(cfg, w, actions[..n]).mem, Run(cfg, w, actions).mem, idem)
    ensures Stands(Run(cfg, w, actions[..n]).mem, Run(cfg, w, actions).disk, idem)
  {
    var held, end := Run(cfg, w, actions[..n]), Run(cfg, w, actions);
    OpenedInv(cfg, w);
    RunBooks(cfg, w, actions[..n]);
    RunOnward(cfg, w, actions, n);
    LeadsKeys(cfg, end.now, held.mem, end.mem, idem);
    ReloadTidy(cfg, end.now, end.mem, end.disk, end.trace);
    LeadsTrans(cfg, end.now, held.mem, end.mem, end.disk);
    LeadsKeys(cfg, end.now, held.mem, end.disk, idem);
  }

  lemma LeadsKeys(cfg: Config, now: Time, s: State, t: State, idem: string)
    requires Leads(cfg, now, s, t) && idem in s.idempotency
    ensures Stands(s, t, idem)
  {
    var chain :| IsChain(cfg, now, chain) && chain[0] == s && chain[|chain| - 1] == t;
    ChainKeys(cfg, now, chain, |chain| - 1, idem);
  }

  /** A call that succeeded at any point of a run and is made again at any later one changes
      nothing; it succeeds again, and another request under its key fails, exactly unless
      arming has taken the key over in between, which it never does once enrollment is armed. */
  lemma ReplayForever(cfg: Config, w: World, actions: seq<Action>, n: nat, idem: string, request: string,
                      later: Time, other: string, edit: Option<Edit>, io: Io, ok: bool, m: State, f: State)
    requires Opened(cfg, w) && n <= |actions|
    requires var held := Run(cfg, w, actions[..n]).mem; idem in held.idempotency && held.idempotency[idem] == request
    requires var end := Run(cfg, w, actions);
             KeyFits(idem) && Answer(cfg, later, idem, other, edit, io, ok, end.mem, end.disk, m, f)
    ensures m == Run(cfg, w, actions).mem && f == Run(cfg, w, actions).disk && idem in m.idempotency
    ensures m.idempotency[idem] == request ==> ok == (other == request)
    ensures m.idempotency[idem] != request ==> ok == (other == ARM_PRINT)
    ensures Run(cfg, w, actions[..n]).mem.armedAt != UNSET ==> ok == (other == request)
  {
    KeysStand(cfg, w, actions, n, idem);
  }

  /** The exception: a Trigger that slips in while enrollment is being armed under its key is
      carried out, and its repetition is then refused. */
  lemma KeyTakenOver(cfg: Config, now: Time, req: Request, listing: seq<Zone>, s: State) returns (t: State, u: State)
    requires KeyFits(req.idem) && req.idem !in s.idempotency && s.armedAt == UNSET && req.request != ARM_PRINT
    requires forall z <- req.zones :: !AnyActive(s, z)
    ensures Apply(cfg, now, TriggerEdit(req), s) == Some(t) && t.idempotency[req.idem] == req.request
    ensures Apply(cfg, now, Arm(listing, req.idem), t) == Some(u) && u.idempotency[req.idem] == ARM_PRINT
    ensures forall edit, io, ok, m, f ::
              Answer(cfg, now, req.idem, req.request, edit, io, ok, u, u, m, f) ==> !ok && m == u && f == u
  {
    StartedEach(s, req.kind, req.zones, req.idem, now, WorkflowId("", ZSK));
    t := Apply(cfg, now, TriggerEdit(req), s).value;
    u := Apply(cfg, now, Arm(listing, req.idem), t).value;
  }
}
