/** Triggers that slip in between the steps of a reconciliation: what they do to the records
    of a zone, and how a plan goes on after them. */
module Races {
  import opened Model
  import opened Inventory
  import opened Edits
  import opened Plans
  import opened World
  import opened Good

  // ---- one Trigger -----------------------------------------------------------------------

  lemma {:induction false} StartedEach(s: State, kind: Kind, zones: seq<string>, idem: string, now: Time,
                                       id: WorkflowId)
    ensures Lookup(StartAll(s, kind, zones, idem, now), id)
         == if id.kind == kind && id.zone in zones then Started(Lookup(s, id), now, true, idem) else Lookup(s, id)
    ensures StartAll(s, kind, zones, idem, now).armedAt == s.armedAt
    ensures id in StartAll(s, kind, zones, idem, now).workflows
            <==> id in s.workflows || (id.kind == kind && id.zone in zones)
  {
    if zones != [] {
      var rest, last := zones[..|zones| - 1], zones[|zones| - 1];
      assert zones == rest + [last];
      StartedEach(s, kind, rest, idem, now, id);
      StartedEach(s, kind, rest, idem, now, WorkflowId(last, kind));
    }
  }

  /** What a trigger does to the records of one zone. */
  lemma TriggerZone(cfg: Config, now: Time, s: State, t: State, req: Request, y: string)
    requires Apply(cfg, now, TriggerEdit(req), s) == Some(t)
    ensures var hit := req.idem !in s.idempotency && y in req.zones;
            && (hit ==> !AnyActive(s, y))
            && forall kind: Kind :: Lookup(t, WorkflowId(y, kind))
                 == if hit && kind == req.kind then Started(Lookup(s, WorkflowId(y, kind)), now, true, req.idem)
                    else Lookup(s, WorkflowId(y, kind))
  {
    var u := StartAll(s, req.kind, req.zones, req.idem, now);
    forall kind: Kind
      ensures Lookup(t, WorkflowId(y, kind))
           == if req.idem !in s.idempotency && y in req.zones && kind == req.kind
              then Started(Lookup(s, WorkflowId(y, kind)), now, true, req.idem) else Lookup(s, WorkflowId(y, kind))
    {
      StartedEach(s, req.kind, req.zones, req.idem, now, WorkflowId(y, kind));
      assert req.idem !in s.idempotency ==> Lookup(t, WorkflowId(y, kind)) == Lookup(u, WorkflowId(y, kind));
    }
  }

  /** The zone's records are the same in both states. */
  predicate Alike(zone: string, a: State, b: State) { RecordsOf(a, zone) == RecordsOf(b, zone) }

  lemma SameRecords(a: State, b: State, zone: string)
    requires forall kind: Kind :: Lookup(b, WorkflowId(zone, kind)) == Lookup(a, WorkflowId(zone, kind))
    ensures Alike(zone, a, b)
  {
    assert Lookup(b, WorkflowId(zone, ZSK)) == Lookup(a, WorkflowId(zone, ZSK));
    assert Lookup(b, WorkflowId(zone, KSK)) == Lookup(a, WorkflowId(zone, KSK));
    assert Lookup(b, WorkflowId(zone, Split)) == Lookup(a, WorkflowId(zone, Split));
    assert Lookup(b, WorkflowId(zone, Enroll)) == Lookup(a, WorkflowId(zone, Enroll));
  }

  /** A trigger leaves zones with an active workflow alone. */
  lemma TriggerLeaves(cfg: Config, now: Time, s: State, t: State, req: Request, y: string)
    requires Apply(cfg, now, TriggerEdit(req), s) == Some(t) && AnyActive(s, y)
    ensures Alike(y, s, t)
  {
    TriggerZone(cfg, now, s, t, req, y);
    SameRecords(s, t, y);
  }

  /** Where a workflow is active, a Trigger that slips in leaves memory alone; the file stays
      as it was or falls back to what memory holds. */
  ghost predicate Undisturbed(zone: string, site: Site, after: Site) {
    && Alike(zone, site.mem, after.mem) && (after.disk == site.disk || Alike(zone, site.mem, after.disk))
    && after.env == site.env && after.trace == site.trace
  }

  lemma SlipLeaves(cfg: Config, now: Time, site: Site, req: Request, zone: string)
    requires AnyActive(site.mem, zone)
    ensures Undisturbed(zone, site, Slipped(cfg, now, site, req))
  {
    var next := Apply(cfg, now, TriggerEdit(req), site.mem);
    if next.Some? {
      TriggerLeaves(cfg, now, site.mem, next.value, req, zone);
    }
  }

  // ---- all Triggers before the next step ----------------------------------------------------

  /** The Triggers at the head of a script carried out, and the script after them. */
  ghost function Settle(cfg: Config, now: Time, site: Site, script: seq<Beat>): (r: (Site, seq<Beat>))
    ensures |r.1| <= |script| && (r.1 == [] || r.1[0].Meets?)
    ensures forall b <- r.1 :: b in script
    decreases |script|
  {
    if script != [] && script[0].Slips? then Settle(cfg, now, Slipped(cfg, now, site, script[0].req), script[1..])
    else (site, script)
  }

  lemma {:induction false} Settled(cfg: Config, now: Time, site: Site, todo: Todo, script: seq<Beat>)
    requires !todo.Rest?
    ensures var (s, rest) := Settle(cfg, now, site, script);
            Perform(cfg, now, site, todo, script)
            == if rest == [] then Crash(s)
               else var step := Meet(cfg, now, s, todo, rest[0].outcome); Perform(cfg, now, step.0, step.1, rest[1..])
    decreases |script|
  {
    if script != [] && script[0].Slips? {
      Settled(cfg, now, Slipped(cfg, now, site, script[0].req), todo, script[1..]);
    }
  }

  lemma {:induction false} SettleLeaves(cfg: Config, now: Time, site: Site, script: seq<Beat>, zone: string)
    requires AnyActive(site.mem, zone)
    ensures Undisturbed(zone, site, Settle(cfg, now, site, script).0)
    decreases |script|
  {
    if script != [] && script[0].Slips? {
      SlipLeaves(cfg, now, site, script[0].req, zone);
      SettleLeaves(cfg, now, Slipped(cfg, now, site, script[0].req), script[1..], zone);
    }
  }

  lemma {:induction false} SettleEnv(cfg: Config, now: Time, site: Site, script: seq<Beat>)
    ensures var s := Settle(cfg, now, site, script).0; s.env == site.env && s.trace == site.trace
    decreases |script|
  {
    if script != [] && script[0].Slips? {
      SettleEnv(cfg, now, Slipped(cfg, now, site, script[0].req), script[1..]);
    }
  }
}
