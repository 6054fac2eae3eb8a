/** The arming of enrollment within a run: which call took effect, and that it stays the one
    in effect through failed writes and restarts. */
module Arming {
  import opened Model
  import opened Inventory
  import opened Edits
  import opened Plans
  import opened World
  import opened Races
  import opened Legitimacy
  import opened Logs
  import opened Calls
  import opened Aside
  import opened Bookkeeping
  import opened Enrollment

  /** The n-th action of the run armed enrollment, as far as memory was concerned. */
  ghost predicate ArmsAt(cfg: Config, w: World, actions: seq<Action>, n: nat) {
    && n < |actions| && actions[n].Arms?
    && var before := Run(cfg, w, actions[..n]);
       Apply(cfg, before.now, Arm(actions[n].listing, actions[n].idem), before.mem).Some?
  }

  ghost function Armed(cfg: Config, w: World, actions: seq<Action>, n: nat): State
    requires ArmsAt(cfg, w, actions, n)
  {
    var before := Run(cfg, w, actions[..n]);
    Apply(cfg, before.now, Arm(actions[n].listing, actions[n].idem), before.mem).value
  }

  /** That arming took effect: memory held its state after m actions, at once or by a reload. */
  ghost predicate TookEffect(cfg: Config, w: World, actions: seq<Action>, n: nat, m: nat) {
    n < m <= |actions| && ArmsAt(cfg, w, actions, n) && Run(cfg, w, actions[..m]).mem == Armed(cfg, w, actions, n)
  }

  /** The file holds that arming's state. */
  ghost predicate FileHolds(cfg: Config, w: World, actions: seq<Action>, n: nat) {
    ArmsAt(cfg, w, actions, n) && Run(cfg, w, actions).disk == Armed(cfg, w, actions, n)
  }

  lemma RunStep(cfg: Config, w: World, actions: seq<Action>, n: nat)
    requires n < |actions|
    ensures Run(cfg, w, actions[..n + 1]) == Next(cfg, Run(cfg, w, actions[..n]), actions[n])
  {
    assert actions[..n + 1][..n] == actions[..n];
  }

  /** An update that was saved takes effect at once; one that reached the file takes effect
      when the file still holds it at a restart. */
  lemma ArmingTakesHold(cfg: Config, w: World, actions: seq<Action>, n: nat)
    requires ArmsAt(cfg, w, actions, n)
    ensures actions[n].io.Saved? ==> TookEffect(cfg, w, actions, n, n + 1)
    ensures !actions[n].io.NotSaved? ==> Run(cfg, w, actions[..n + 1]).disk == Armed(cfg, w, actions, n)
    ensures forall k | n < k < |actions| && actions[k].Restarts?
                       && Run(cfg, w, actions[..k]).disk == Armed(cfg, w, actions, n) ::
              TookEffect(cfg, w, actions, n, k + 1)
  {
    RunStep(cfg, w, actions, n);
    forall k | n < k < |actions| && actions[k].Restarts? && Run(cfg, w, actions[..k]).disk == Armed(cfg, w, actions, n)
      ensures TookEffect(cfg, w, actions, n, k + 1)
    {
      RunStep(cfg, w, actions, k);
    }
  }

  // ---- memory is armed by an arming of the run -------------------------------------------------

  lemma SaveArmed(cfg: Config, w: World, edit: Edit, io: Io)
    requires w.now > 0 && !edit.Arm?
    ensures var after := SaveTo(cfg, w, edit, io);
            after.mem.armedAt == w.mem.armedAt && (after.disk == w.disk || after.disk.armedAt == w.mem.armedAt)
    ensures io.Saved? && Apply(cfg, w.now, edit, w.mem).Some? ==> SaveTo(cfg, w, edit, io).disk.armedAt == w.mem.armedAt
  {
    var next := Apply(cfg, w.now, edit, w.mem);
    if next.Some? {
      ArmedStays(cfg, w.now, edit, w.mem, next.value);
    }
  }

  lemma ReconcileArmed(cfg: Config, w: World, a: Action)
    requires BooksInv(cfg, w) && a.Reconciles? && a.zone.name in w.envs && Truthful(a.ev, w.envs[a.zone.name])
    ensures var after := ReconcileStep(cfg, w, a);
            after.mem.armedAt == w.mem.armedAt && (after.disk == w.disk || after.disk.armedAt == w.mem.armedAt)
  {
    var booted := SaveTo(cfg, w, Boot(a.zone, a.ev.keys), a.boot);
    SaveArmed(cfg, w, Boot(a.zone, a.ev.keys), a.boot);
    if a.boot.Saved? {
      ListedPositive(a.ev.keys, w.envs[a.zone.name], w.now);
      SaveOnward(cfg, w, Boot(a.zone, a.ev.keys), a.boot);
      LoggedSound(cfg, w.now, booted.mem);
      ReconcileWithin(cfg, w.now, a.zone, booted.mem, a.ev, a.pick);
      ArmingKept(cfg, w.now, a.zone.name, SiteOf(booted, a.zone.name), Reconcile(cfg, w.now, a.zone, booted.mem, a.ev, a.pick), a.script);
    }
  }

  /** How a single action can arm memory or the file. */
  lemma NextArmed(cfg: Config, w: World, a: Action)
    requires BooksInv(cfg, w)
    ensures var after := Next(cfg, w, a);
            var armed := if a.Arms? then Apply(cfg, w.now, Arm(a.listing, a.idem), w.mem) else None;
            && (after.mem.armedAt == w.mem.armedAt || Some(after.mem) == armed || (a.Restarts? && after.mem == w.disk))
            && (after.disk == w.disk || after.disk.armedAt == w.mem.armedAt || Some(after.disk) == armed)
  {
    match a
    case Reconciles(zone, ev, _, _, script) =>
      if zone.name in w.envs && Truthful(ev, w.envs[zone.name]) && Concurrent(script, w.envs) { ReconcileArmed(cfg, w, a); }
    case Arms(_, _, _) =>
    case Triggers(_) => if Demand(cfg, w, a).Some? { SaveArmed(cfg, w, Demand(cfg, w, a).value, Reach(a)); }
    case Resumes(_, _, _, _, _) => if Demand(cfg, w, a).Some? { SaveArmed(cfg, w, Demand(cfg, w, a).value, Reach(a)); }
    case Attests(_, _, _, _, _) => if Demand(cfg, w, a).Some? { SaveArmed(cfg, w, Demand(cfg, w, a).value, Reach(a)); }
    case Sweeps(_, _) => if Demand(cfg, w, a).Some? { SaveArmed(cfg, w, Demand(cfg, w, a).value, Reach(a)); }
    case Housekeeps(_, _) => if Demand(cfg, w, a).Some? { SaveArmed(cfg, w, Demand(cfg, w, a).value, Reach(a)); }
    case _ =>
  }

  /** Memory armed: by an arming of this run. File armed and memory not: the file holds one. */
  lemma {:induction false} ArmedByRun(cfg: Config, w: World, actions: seq<Action>)
    requires Opened(cfg, w)
    ensures Run(cfg, w, actions).mem.armedAt != UNSET ==> exists n, m :: TookEffect(cfg, w, actions, n, m)
    ensures Run(cfg, w, actions).mem.armedAt == UNSET && Run(cfg, w, actions).disk.armedAt != UNSET ==>
              exists n :: FileHolds(cfg, w, actions, n)
  {
    if actions != [] {
      var shorter, k := actions[..|actions| - 1], |actions| - 1;
      var before, a := Run(cfg, w, shorter), actions[k];
      var after := Run(cfg, w, actions);
      OpenedInv(cfg, w);
      RunBooks(cfg, w, shorter);
      ArmedByRun(cfg, w, shorter);
      NextArmed(cfg, before, a);
      if before.mem.armedAt != UNSET {
        var n, m :| TookEffect(cfg, w, shorter, n, m);
        Longer(cfg, w, actions, n, m);
        NextOnward(cfg, before, a);
        LeadsArmed(cfg, after.now, before.mem, after.mem);
      } else {
        if before.disk.armedAt != UNSET {
          var n :| FileHolds(cfg, w, shorter, n);
          StillHolds(cfg, w, actions, n);
        }
        if a.Arms? && Apply(cfg, before.now, Arm(a.listing, a.idem), before.mem).Some? {
          LastArms(cfg, w, actions);
        }
      }
    }
  }

  lemma Longer(cfg: Config, w: World, actions: seq<Action>, n: nat, m: nat)
    requires actions != [] && TookEffect(cfg, w, actions[..|actions| - 1], n, m)
    ensures TookEffect(cfg, w, actions, n, m)
  {
    var shorter := actions[..|actions| - 1];
    assert shorter[..n] == actions[..n] && shorter[..m] == actions[..m];
  }

  lemma LeadsArmed(cfg: Config, now: Time, s: State, t: State)
    requires Leads(cfg, now, s, t) && s.armedAt != UNSET
    ensures t.armedAt == s.armedAt
  {
    var chain :| IsChain(cfg, now, chain) && chain[0] == s && chain[|chain| - 1] == t;
    ChainArmed(cfg, now, chain, |chain| - 1);
  }

  lemma {:induction false} ChainArmed(cfg: Config, now: Time, chain: seq<State>, n: nat)
    requires IsChain(cfg, now, chain) && n < |chain| && chain[0].armedAt != UNSET
    ensures chain[n].armedAt == chain[0].armedAt
  {
    if n > 0 {
      ChainArmed(cfg, now, chain, n - 1);
      assert Steps(cfg, now, chain[n - 1], chain[n - 1 + 1]);
      var e, at: Time :| 0 < at <= now && Logged(cfg, at, chain[n - 1]) && Legal(cfg, at, e, chain[n - 1])
                         && Apply(cfg, at, e, chain[n - 1]) == Some(chain[n]);
      ArmedStays(cfg, at, e, chain[n - 1], chain[n]);
    }
  }

  /** The last action leaves the arming on file, or loads it. */
  lemma StillHolds(cfg: Config, w: World, actions: seq<Action>, n: nat)
    requires actions != [] && FileHolds(cfg, w, actions[..|actions| - 1], n)
    ensures var before, after := Run(cfg, w, actions[..|actions| - 1]), Run(cfg, w, actions);
            && (after.disk == before.disk ==> FileHolds(cfg, w, actions, n))
            && (after.mem == before.disk ==> TookEffect(cfg, w, actions, n, |actions|))
  {
    var shorter := actions[..|actions| - 1];
    assert shorter[..n] == actions[..n] && actions[..|actions|] == actions;
  }

  lemma LastArms(cfg: Config, w: World, actions: seq<Action>)
    requires actions != [] && ArmsAt(cfg, w, actions, |actions| - 1)
    ensures var armed := Armed(cfg, w, actions, |actions| - 1);
            && (Run(cfg, w, actions).mem == armed ==> TookEffect(cfg, w, actions, |actions| - 1, |actions|))
            && (Run(cfg, w, actions).disk == armed ==> FileHolds(cfg, w, actions, |actions| - 1))
  {
    assert actions[..|actions|] == actions;
  }

  // ---- what it means for writes ------------------------------------------------------------------

  predicate ListedSigned(a: Action, zone: Zone) { a.Arms? && zone in a.listing && zone.dnssec }

  /** Once an arming took effect, no zone it listed as DNSSEC-enabled has been or will be asked
      for at the registrar by an enrollment. */
  lemma ListedZonesSpared(cfg: Config, w: World, actions: seq<Action>, n: nat, m: nat, zone: Zone, event: Event)
    requires Opened(cfg, w) && TookEffect(cfg, w, actions, n, m)
    requires ListedSigned(actions[n], zone)
    requires event in Run(cfg, w, actions).trace && event.Updated? && event.w.kind.Enroll?
    ensures event.w.zone != zone.name
  {
    var before, end := Run(cfg, w, actions[..n]), Run(cfg, w, actions);
    OpenedInv(cfg, w);
    RunBooks(cfg, w, actions[..n]);
    RunOnward(cfg, w, actions, m);
    ArmingBuries(cfg, before.now, before.mem, Armed(cfg, w, actions, n), actions[n].listing, actions[n].idem, zone, end.now, end.mem);
    assert Recalls(end.mem, event);
  }

  /** Whoever asked the registrar for an enrollment did so under an arming of this run. */
  lemma AskedUnderArming(cfg: Config, w: World, actions: seq<Action>, event: Event) returns (n: nat, m: nat)
    requires Opened(cfg, w) && event in Run(cfg, w, actions).trace && event.Updated? && event.w.kind.Enroll?
    ensures TookEffect(cfg, w, actions, n, m)
  {
    var end := Run(cfg, w, actions);
    OpenedInv(cfg, w);
    RunBooks(cfg, w, actions);
    assert Recalls(end.mem, event);
    LoggedEnroll(cfg, end.now, end.mem);
    ArmedByRun(cfg, w, actions);
    n, m :| TookEffect(cfg, w, actions, n, m);
  }
}
