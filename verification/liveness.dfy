/** A helpful world exists: from any first start with a plainly signed zone, a triggered ZSK
    rotation meets, round after round, evidence that suffices and calls that are answered, and
    so reaches idle with the key replaced. */
module Liveness {
  import opened Model
  import opened Inventory
  import opened Edits
  import opened Plans
  import opened World
  import opened Facts
  import opened Good
  import opened Races
  import opened Legitimacy
  import opened Logs
  import opened Calls
  import opened Aside
  import opened ReconcileSafety
  import opened Bookkeeping
  import opened Runs
  import opened Guarantees
  import opened Progress
  import opened ProofsFirst
  import opened Willingness
  import opened Termination

  // ---- the zone on its way --------------------------------------------------------------------

  const LABEL := "ECDSAP256SHA256"

  /** Key 1 is the KSK, key 2 the ZSK to replace, key 3 its replacement. */
  function Replacement(active: bool): Key { PlainKey(3, ZskType).(active := active) }

  /** Before the creation, before the activation, while both sign, after the deactivation. */
  datatype Stage = Alone | Waiting | Both | Retired

  function StageOf(p: Phase): Stage {
    match p
    case Prepublish => Alone
    case WaitPublish | ActivateNew => Waiting
    case WaitNewSignature | DeactivateOld => Both
    case _ => Retired
  }

  function KeyList(s: Stage): seq<Key> {
    match s
    case Alone => [PlainKey(1, KskType), PlainKey(2, ZskType)]
    case Waiting => [PlainKey(1, KskType), PlainKey(2, ZskType), Replacement(false)]
    case Both => [PlainKey(1, KskType), PlainKey(2, ZskType), Replacement(true)]
    case Retired => [PlainKey(1, KskType), PlainKey(2, ZskType).(active := false), Replacement(true)]
  }

  function KeyMap(s: Stage): map<int, Key> {
    match s
    case Alone => map[1 := PlainKey(1, KskType), 2 := PlainKey(2, ZskType)]
    case Waiting => map[1 := PlainKey(1, KskType), 2 := PlainKey(2, ZskType), 3 := Replacement(false)]
    case Both => map[1 := PlainKey(1, KskType), 2 := PlainKey(2, ZskType), 3 := Replacement(true)]
    case Retired => map[1 := PlainKey(1, KskType), 2 := PlainKey(2, ZskType).(active := false), 3 := Replacement(true)]
  }

  function SignedBy(s: Stage): set<int> {
    match s case Alone | Waiting => {2} case Both => {2, 3} case Retired => {3}
  }

  function PublishedThen(s: Stage): set<int> { if s.Alone? then {1, 2} else {1, 2, 3} }

  predicate EnvAt(e: Env, s: Stage) {
    && e.keys == KeyMap(s) && e.used == PublishedThen(s)
    && e.cur.pub == PublishedThen(s) && e.cur.zs == SignedBy(s) && e.cur.ks == {1}
    && e.cur.dnskeyTtl == 3600 && e.cur.zoneTtl == DAY
  }

  predicate RecordAt(x: Workflow) {
    match x.phase
    case Prepublish => x.oldKey in {0, 2} && x.newKey == 0 && x.newZsk == 0 && x.newKeyTriedAt == UNSET && x.zoneTtl == 0
    case WaitPublish | ActivateNew => x.oldKey == 2 && x.newKey == 3 && x.zoneTtl == 0
    case WaitNewSignature => x.oldKey == 2 && x.newKey == 3 && x.zoneTtl in {0, DAY}
    case DeactivateOld | WaitRetire | DeleteOld => x.oldKey == 2 && x.newKey == 3 && x.zoneTtl == DAY
    case _ => false
  }

  /** The truth about the zone, and nothing more than the handlers ask for. */
  function Truth(s: Stage): Evidence {
    var seen := Some(Seen(PublishedThen(s), 3600));
    Evidence(KeyList(s), seen, seen, {1}, {1}, SignedBy(s), SignedBy(s), {}, map[], false, true, None, JobUnreadable,
             Some([DAY]))
  }

  lemma KeysListed(s: Stage)
    ensures Lists(KeyList(s), KeyMap(s))
  {}

  lemma TruthIsTrue(e: Env, s: Stage)
    requires EnvAt(e, s)
    ensures Truthful(Truth(s), e)
  {
    KeysListed(s);
    assert [DAY as Ttl][..0] == [];
  }

  /** Calls are carried out and answered; the signers are those of the stage they lead to. */
  function Reply(p: Phase): Outcome {
    Outcome(Saved, true, true, Replacement(false), Job(0, "", NoStatus),
            match p case ActivateNew => {2, 3} case DeactivateOld | DeleteOld => {3} case _ => {2}, {1})
  }

  function Answers(p: Phase): seq<Beat> { [Meets(Reply(p)), Meets(Reply(p)), Meets(Reply(p))] }

  // ---- the plans -------------------------------------------------------------------------------

  predicate OnTrack(cfg: Config, now: Time, x: Workflow) {
    && ValidConfig(cfg) && now > 0 && LabelMatches(cfg, LABEL, 13)
    && x.kind.ZSK? && RecordAt(x) && Sound(cfg, x) && x.nextAt <= now
  }

  /** The record the handler leaves, if it is not the last one. */
  function After(cfg: Config, now: Time, x: Workflow): Workflow {
    match x.phase
    case Prepublish =>
      if x.oldKey == 0 then Moved(x, now, Prepublish, now).(oldKey := 2)
      else Filled(Marked(x, false, now), now, false, 3)
    case WaitPublish =>
      if x.evidenceAt == UNSET then
        Moved(x, now, WaitPublish, now + Max(3600, cfg.minDnskeyWait) + cfg.margin).(dnskeyTtl := 3600, evidenceAt := now)
      else Moved(x, now, ActivateNew, now).(evidenceAt := UNSET)
    case ActivateNew => Moved(x, now, WaitNewSignature, now).(evidenceAt := UNSET)
    case WaitNewSignature =>
      if x.zoneTtl == 0 then Moved(x, now, WaitNewSignature, now).(zoneTtl := DAY)
      else Moved(x, now, DeactivateOld, now).(evidenceAt := UNSET)
    case DeactivateOld => Moved(x, now, WaitRetire, now + x.zoneTtl + cfg.margin)
    case _ => Moved(x, now, DeleteOld, now)
  }

  function PlanThen(cfg: Config, now: Time, x: Workflow): Todo {
    var y := After(cfg, now, x);
    match x.phase
    case Prepublish =>
      if x.oldKey == 0 then Go(x, y)
      else Persist(MarkCreate(x, false), Create(Marked(x, false, now), ZskType, LABEL, false, false), Fail(x))
    case ActivateNew => Set(x, 3, true, Go(x, y))
    case DeactivateOld => Set(x, 2, false, Go(x, y))
    case DeleteOld => Delete(x, 2, Finish(x))
    case _ => Go(x, y)
  }

  lemma DayIsMost()
    ensures MaxTtl([DAY]) == DAY
  {
    assert [DAY as Ttl][..0] == [];
  }

  lemma NothingToAdopt(cfg: Config, x: Workflow)
    requires x.oldKey == 2 && x.newKey == 0 && x.kind.ZSK?
    ensures Adoptable(cfg, x, KeyList(Alone), ZskType, LABEL, false, false) == Some([])
  {
    var ks := KeyList(Alone);
    assert ks[..1] == [ks[0]] && ks[..1][..0] == [];
    assert Adoptable(cfg, x, ks[..1], ZskType, LABEL, false, false) == Some([]);
  }

  lemma ChoosePlan(cfg: Config, now: Time, x: Workflow)
    requires OnTrack(cfg, now, x) && x.phase.Prepublish?
    ensures PrepublishPlan(cfg, now, x, Truth(Alone)) == PlanThen(cfg, now, x)
  {
    if x.oldKey == 2 {
      NothingToAdopt(cfg, x);
    }
  }

  lemma WaitingKeys()
    ensures PublishedIds(KeyList(Waiting)) == {1, 2, 3} && Closed(KeyList(Waiting), {1, 2, 3})
    ensures forall id :: ById(KeyList(Waiting), id) == if id in KeyMap(Waiting) then Some(KeyMap(Waiting)[id]) else None
    ensures ExactlyOneActive(KeyList(Waiting), KskType) == Some(PlainKey(1, KskType))
  {
    assert PublishedKeys(KeyList(Waiting)) == KeyList(Waiting);
    assert Ids(KeyList(Waiting)) == {1, 2, 3};
    assert ActiveOf(KeyList(Waiting), KskType) == [KeyList(Waiting)[0]];
  }

  lemma WaitingInventory(x: Workflow)
    requires x.kind.ZSK? && x.oldKey == 2 && x.newKey == 3
    ensures PrepublishInventory(KeyList(Waiting), x)
  {
    WaitingKeys();
    assert {x.oldKey, x.newKey, 1} == {1, 2, 3};
  }

  lemma PublishPlan(cfg: Config, now: Time, x: Workflow)
    requires OnTrack(cfg, now, x) && x.phase.WaitPublish?
    ensures WaitPublishPlan(cfg, now, x, Truth(Waiting)) == PlanThen(cfg, now, x)
  {
    WaitingKeys();
    WaitingInventory(x);
    assert ProvePublication(cfg, now, x, Truth(Waiting)) == PlanThen(cfg, now, x);
  }

  lemma ActivatePlan(cfg: Config, now: Time, x: Workflow)
    requires OnTrack(cfg, now, x) && x.phase.ActivateNew?
    ensures ActivateNewPlan(now, x, Truth(Waiting)) == PlanThen(cfg, now, x)
  {
    WaitingKeys();
  }

  lemma SignPlan(cfg: Config, now: Time, x: Workflow)
    requires OnTrack(cfg, now, x) && x.phase.WaitNewSignature?
    ensures WaitNewSignaturePlan(cfg, now, x, Truth(Both)) == PlanThen(cfg, now, x)
  {
    DayIsMost();
  }

  lemma BothPublished()
    ensures PublishedIds(KeyList(Both)) == {1, 2, 3}
    ensures forall id :: ById(KeyList(Both), id) == if id in KeyMap(Both) then Some(KeyMap(Both)[id]) else None
  {
    assert PublishedKeys(KeyList(Both)) == KeyList(Both);
    assert Ids(KeyList(Both)) == {1, 2, 3};
  }

  lemma DeactivatePlan(cfg: Config, now: Time, x: Workflow)
    requires OnTrack(cfg, now, x) && x.phase.DeactivateOld?
    ensures DeactivateOldPlan(cfg, now, x, Truth(Both)) == PlanThen(cfg, now, x)
  {
    DayIsMost();
    BothPublished();
    assert SwitchOff(cfg, now, x, Truth(Both), KeyMap(Both)[2]) == PlanThen(cfg, now, x);
    assert Deactivate(cfg, now, x, Truth(Both)) == SwitchOff(cfg, now, x, Truth(Both), KeyMap(Both)[2]);
  }

  lemma RetiredKeys()
    ensures forall id :: ById(KeyList(Retired), id) == if id in KeyMap(Retired) then Some(KeyMap(Retired)[id]) else None
    ensures ExactlyOneActive(KeyList(Retired), KskType) == Some(PlainKey(1, KskType))
    ensures DistinctIds(KeyList(Retired)) && Closed(KeyList(Retired), {1, 2, 3})
  {
    assert ActiveOf(KeyList(Retired), KskType) == [KeyList(Retired)[0]];
  }

  lemma RetirementIs(x: Workflow)
    requires x.kind.ZSK? && x.oldKey == 2 && x.newKey == 3
    ensures var r := RetirementInventory(KeyList(Retired), x); r.Some? && Ids(r.value) == {1, 2, 3}
  {
    var ks, m := KeyList(Retired), KeyMap(Retired);
    RetiredKeys();
    var expected := [m[3], m[1]] + [m[2]];
    assert Ids(expected) == {1, 2, 3} by {
      assert m[1] in expected && m[2] in expected && m[3] in expected;
    }
    assert ValidRole(m[3], ZskType, false).Some? && ValidRole(m[1], KskType, false).Some?;
    assert RetiredOld(m[2], x, m[3].data.value);
  }

  lemma RetirePlan(cfg: Config, now: Time, x: Workflow)
    requires OnTrack(cfg, now, x) && x.phase.WaitRetire?
    ensures WaitRetirePlan(now, x, Truth(Retired)) == PlanThen(cfg, now, x)
  {
    RetiredKeys();
  }

  lemma DeletePlan(cfg: Config, now: Time, x: Workflow)
    requires OnTrack(cfg, now, x) && x.phase.DeleteOld?
    ensures DeleteOldPlan(x, Truth(Retired)) == PlanThen(cfg, now, x)
  {
    RetirementIs(x);
    RetiredKeys();
  }

  lemma PlanIs(cfg: Config, now: Time, zone: Zone, x: Workflow, armedAt: Time)
    requires OnTrack(cfg, now, x)
    ensures Advance(cfg, now, zone, x, Truth(StageOf(x.phase)), armedAt) == PlanThen(cfg, now, x)
    ensures Suffices(cfg, now, zone, x, Truth(StageOf(x.phase)), armedAt)
  {
    match x.phase
    case Prepublish => ChoosePlan(cfg, now, x);
    case WaitPublish => PublishPlan(cfg, now, x);
    case ActivateNew => ActivatePlan(cfg, now, x);
    case WaitNewSignature => SignPlan(cfg, now, x);
    case DeactivateOld => DeactivatePlan(cfg, now, x);
    case WaitRetire => RetirePlan(cfg, now, x);
    case DeleteOld => DeletePlan(cfg, now, x);
    SufficesExactly(cfg, now, zone, x, Truth(StageOf(x.phase)), armedAt);
  }

  // ---- what PowerDNS makes of the calls --------------------------------------------------------

  /** The end: the old key is gone, the new one signs. */
  predicate EnvDone(e: Env) {
    e.keys == map[1 := PlainKey(1, KskType), 3 := Replacement(true)] && e.cur.pub == {1, 3} && e.cur.zs == {3} && e.cur.ks == {1}
  }

  lemma Signing(keys: map<int, Key>, s: Stage)
    requires keys == KeyMap(s)
    ensures Active(keys) == (match s case Alone | Waiting => {1, 2} case Both => {1, 2, 3} case Retired => {1, 3})
    ensures Published(keys) == PublishedThen(s) && keys.Keys == PublishedThen(s)
    ensures SignsZone(keys, SignedBy(s)) && SignsDnskey(keys, {1})
  {
    assert ActiveWith(keys, ZONE_FLAGS) == SignedBy(s) && ActiveWith(keys, SEP_FLAGS) == {1};
  }

  lemma CreateAnswered(e: Env, now: Time)
    requires EnvAt(e, Alone)
    ensures var made := CreateCall(e, now, ZskType, false, Reply(Prepublish)); made.Some? && EnvAt(made.value, Waiting)
  {
    assert e.keys[3 := Replacement(false)] == KeyMap(Waiting);
    Signing(KeyMap(Waiting), Waiting);
  }

  lemma ActivationAnswered(e: Env, now: Time)
    requires EnvAt(e, Waiting)
    ensures var made := SetCall(e, now, 3, true, Reply(ActivateNew)); made.Some? && EnvAt(made.value, Both)
  {
    assert e.keys[3 := e.keys[3].(active := true, published := true)] == KeyMap(Both);
    Signing(KeyMap(Both), Both);
  }

  lemma DeactivationAnswered(e: Env, now: Time)
    requires EnvAt(e, Both)
    ensures var made := SetCall(e, now, 2, false, Reply(DeactivateOld)); made.Some? && EnvAt(made.value, Retired)
  {
    assert e.keys[2 := e.keys[2].(active := false, published := true)] == KeyMap(Retired);
    Signing(KeyMap(Retired), Retired);
  }

  lemma DeletionAnswered(e: Env, now: Time)
    requires EnvAt(e, Retired)
    ensures var made := DeleteCall(e, now, 2, Reply(DeleteOld)); made.Some? && EnvDone(made.value)
  {
    var keys := e.keys - {2};
    assert keys == map[1 := PlainKey(1, KskType), 3 := Replacement(true)];
    assert Active(keys) == {1, 3} && Published(keys) == {1, 3};
    assert ActiveWith(keys, ZONE_FLAGS) == {3} && ActiveWith(keys, SEP_FLAGS) == {1};
  }

  // ---- one reconciliation ------------------------------------------------------------------------

  lemma First(cfg: Config, now: Time, site: Site, todo: Todo, o: Outcome, rest: seq<Beat>)
    requires !todo.Rest?
    ensures var script := [Meets(o)] + rest;
            var step := Meet(cfg, now, site, todo, o);
            && Perform(cfg, now, site, todo, script) == Perform(cfg, now, step.0, step.1, rest)
            && (Obliging(cfg, now, site, todo, script)
                <==> o.io.Saved? && o.seen && Welcome(cfg, now, site.env, todo, o) && Obliging(cfg, now, step.0, step.1, rest))
  {
    assert ([Meets(o)] + rest)[1..] == rest;
  }

  /** The last record of the reconciliation is written, everything else in the state is as it was. */
  predicate Wrote(a: State, b: State, x: Workflow) { b == a.(workflows := a.workflows[x.Id() := x]) }

  lemma GoDone(cfg: Config, now: Time, site: Site, x: Workflow, y: Workflow, p: Phase, rest: seq<Beat>)
    requires y.Id() == x.Id()
    ensures var script := [Meets(Reply(p))] + rest;
            var after := Perform(cfg, now, site, Go(x, y), script);
            Obliging(cfg, now, site, Go(x, y), script) && Wrote(site.mem, after.mem, y) && after.env == site.env
  {
    First(cfg, now, site, Go(x, y), Reply(p), rest);
  }

  lemma SetDone(cfg: Config, now: Time, site: Site, x: Workflow, key: int, on: bool, y: Workflow, p: Phase, rest: seq<Beat>)
    requires y.Id() == x.Id() && SetCall(site.env, now, key, on, Reply(p)).Some?
    ensures var script := [Meets(Reply(p))] + ([Meets(Reply(p))] + rest);
            var todo := Set(x, key, on, Go(x, y));
            var after := Perform(cfg, now, site, todo, script);
            && Obliging(cfg, now, site, todo, script) && Wrote(site.mem, after.mem, y)
            && after.env == SetCall(site.env, now, key, on, Reply(p)).value
  {
    var todo := Set(x, key, on, Go(x, y));
    First(cfg, now, site, todo, Reply(p), [Meets(Reply(p))] + rest);
    GoDone(cfg, now, Meet(cfg, now, site, todo, Reply(p)).0, x, y, p, rest);
  }

  lemma DeleteDone(cfg: Config, now: Time, site: Site, x: Workflow, p: Phase, rest: seq<Beat>)
    requires DeleteCall(site.env, now, 2, Reply(p)).Some?
    ensures var script := [Meets(Reply(p))] + ([Meets(Reply(p))] + rest);
            var todo := Delete(x, 2, Finish(x));
            var after := Perform(cfg, now, site, todo, script);
            && Obliging(cfg, now, site, todo, script) && after.mem == CompleteState(cfg, site.mem, x, now)
            && after.env == DeleteCall(site.env, now, 2, Reply(p)).value
  {
    var todo := Delete(x, 2, Finish(x));
    First(cfg, now, site, todo, Reply(p), [Meets(Reply(p))] + rest);
    First(cfg, now, Meet(cfg, now, site, todo, Reply(p)).0, Finish(x), Reply(p), rest);
  }

  lemma CreateDone(cfg: Config, now: Time, site: Site, x: Workflow)
    requires OnTrack(cfg, now, x) && x.phase.Prepublish? && x.oldKey == 2 && Lookup(site.mem, x.Id()) == x
    requires CreateCall(site.env, now, ZskType, false, Reply(Prepublish)).Some?
    ensures var b := Meets(Reply(Prepublish));
            var after := Perform(cfg, now, site, PlanThen(cfg, now, x), [b] + ([b] + ([b] + [])));
            && Obliging(cfg, now, site, PlanThen(cfg, now, x), [b] + ([b] + ([b] + [])))
            && Wrote(site.mem, after.mem, After(cfg, now, x))
            && after.env == CreateCall(site.env, now, ZskType, false, Reply(Prepublish)).value
  {
    var o := Reply(Prepublish);
    var b := Meets(o);
    var v := Marked(x, false, now);
    First(cfg, now, site, PlanThen(cfg, now, x), o, [b] + ([b] + []));
    var marked := Meet(cfg, now, site, PlanThen(cfg, now, x), o).0;
    assert marked.mem == site.mem.(workflows := site.mem.workflows[x.Id() := v]);
    var call := Create(v, ZskType, LABEL, false, false);
    First(cfg, now, marked, call, o, [b] + []);
    assert GoodReply(cfg, v, o.key, ZskType, LABEL, false, false);
    var made := Meet(cfg, now, marked, call, o);
    assert made.1 == Go(v, Filled(v, now, false, 3));
    GoDone(cfg, now, made.0, v, Filled(v, now, false, 3), Prepublish, []);
  }

  lemma RoundDone(cfg: Config, now: Time, site: Site, x: Workflow)
    requires OnTrack(cfg, now, x) && Lookup(site.mem, x.Id()) == x && EnvAt(site.env, StageOf(x.phase))
    ensures Obliging(cfg, now, site, PlanThen(cfg, now, x), Answers(x.phase))
    ensures var y, after := After(cfg, now, x), Perform(cfg, now, site, PlanThen(cfg, now, x), Answers(x.phase));
            if x.phase.DeleteOld? then after.mem == CompleteState(cfg, site.mem, x, now) && EnvDone(after.env)
            else Wrote(site.mem, after.mem, y) && y.Id() == x.Id() && RecordAt(y) && EnvAt(after.env, StageOf(y.phase))
  {
    var b := Meets(Reply(x.phase));
    var y := After(cfg, now, x);
    assert Answers(x.phase) == [b] + ([b] + ([b] + [])) == [b] + ([b] + [b]);
    if x.phase.Prepublish? && x.oldKey == 2 {
      CreateAnswered(site.env, now);
      CreateDone(cfg, now, site, x);
    } else if x.phase.ActivateNew? {
      ActivationAnswered(site.env, now);
      SetDone(cfg, now, site, x, 3, true, y, x.phase, [b]);
    } else if x.phase.DeactivateOld? {
      DeactivationAnswered(site.env, now);
      SetDone(cfg, now, site, x, 2, false, y, x.phase, [b]);
    } else if x.phase.DeleteOld? {
      DeletionAnswered(site.env, now);
      DeleteDone(cfg, now, site, x, x.phase, [b]);
    } else {
      GoDone(cfg, now, site, x, y, x.phase, [b] + [b]);
    }
  }

  // ---- rounds ------------------------------------------------------------------------------------

  function Zsk(name: string): WorkflowId { WorkflowId(name, ZSK) }

  /** Reconciles the zone with the truth about it and obliging answers. */
  function Aid(name: string, w: World): Help {
    var p := Lookup(w.mem, Zsk(name)).phase;
    Help([], Reconciles(Zone("zone", name, true), Truth(StageOf(p)), Saved, 0, Answers(p)))
  }

  /** A point of the run: the rotation under way, or done. */
  ghost predicate Point(cfg: Config, w: World, name: string) {
    && BooksInv(cfg, w) && LabelMatches(cfg, LABEL, 13) && name in w.envs && w.mem.armedAt == UNSET
    && var x := Lookup(w.mem, Zsk(name));
    && x.Id() == Zsk(name)
    && (if x.Active() then RecordAt(x) && EnvAt(w.envs[name], StageOf(x.phase)) else EnvDone(w.envs[name]))
    && !Lookup(w.mem, WorkflowId(name, Enroll)).Active()
  }

  lemma PointAlone(cfg: Config, w: World, name: string)
    requires Point(cfg, w, name) && Lookup(w.mem, Zsk(name)).Active()
    ensures ActiveKinds(w.mem, name) == [ZSK]
  {
    OneRotation(cfg, w.now, w.mem, name);
  }

  lemma Booted(cfg: Config, w: World, name: string, a: Action)
    requires Point(cfg, w, name) && Lookup(w.mem, Zsk(name)).Active() && a == Aid(name, w).reconcile
    ensures var booted := SaveTo(cfg, w, Boot(a.zone, a.ev.keys), a.boot);
            && Point(cfg, booted, name) && Lookup(booted.mem, Zsk(name)) == Lookup(w.mem, Zsk(name))
            && booted.now == w.now && booted.envs == w.envs && booted.mem == booted.disk
  {
    var x := Lookup(w.mem, Zsk(name));
    TruthIsTrue(w.envs[name], StageOf(x.phase));
    ListedPositive(a.ev.keys, w.envs[name], w.now);
    SaveOnward(cfg, w, Boot(a.zone, a.ev.keys), a.boot);
    SaveKeepsRest(cfg, w, Boot(a.zone, a.ev.keys), a.boot);
    BootRecords(cfg, w.mem, a.zone, a.ev.keys, w.now, Zsk(name));
    BootRecords(cfg, w.mem, a.zone, a.ev.keys, w.now, WorkflowId(name, Enroll));
    EnsuredRecords(w.mem, name, KeyScheme(a.ev.keys), w.now, WorkflowId(name, Enroll));
  }

  lemma PointReady(cfg: Config, w: World, name: string)
    requires Point(cfg, w, name) && Lookup(w.mem, Zsk(name)).Active() && Lookup(w.mem, Zsk(name)).nextAt <= w.now
    ensures OnTrack(cfg, w.now, Lookup(w.mem, Zsk(name)))
  {
    LoggedSound(cfg, w.now, w.mem);
  }

  lemma AidHelps(cfg: Config, w: World, name: string)
    requires Point(cfg, w, name) && Lookup(w.mem, Zsk(name)).Active() && Lookup(w.mem, Zsk(name)).nextAt <= w.now
    ensures Helpful(cfg, w, Zsk(name), Aid(name, w).reconcile)
  {
    var a := Aid(name, w).reconcile;
    AidFits(cfg, w, name);
    Booted(cfg, w, name, a);
    PlanHelped(cfg, SaveTo(cfg, w, Boot(a.zone, a.ev.keys), a.boot), name, a);
  }

  lemma AidFits(cfg: Config, w: World, name: string)
    requires Point(cfg, w, name) && Lookup(w.mem, Zsk(name)).Active()
    ensures var a := Aid(name, w).reconcile;
            Truthful(a.ev, w.envs[name]) && Concurrent(a.script, w.envs)
  {
    TruthIsTrue(w.envs[name], StageOf(Lookup(w.mem, Zsk(name)).phase));
  }

  lemma PlanHelped(cfg: Config, w: World, name: string, a: Action)
    requires Point(cfg, w, name) && Lookup(w.mem, Zsk(name)).Active() && Lookup(w.mem, Zsk(name)).nextAt <= w.now
    requires a == Aid(name, w).reconcile
    ensures ActiveKinds(w.mem, name) == [ZSK]
    ensures var x := Lookup(w.mem, Zsk(name));
            && Suffices(cfg, w.now, a.zone, x, a.ev, w.mem.armedAt)
            && Obliging(cfg, w.now, SiteOf(w, name), Advance(cfg, w.now, a.zone, x, a.ev, w.mem.armedAt), a.script)
  {
    var x := Lookup(w.mem, Zsk(name));
    PointAlone(cfg, w, name);
    PointReady(cfg, w, name);
    PlanIs(cfg, w.now, a.zone, x, w.mem.armedAt);
    RoundDone(cfg, w.now, SiteOf(w, name), x);
  }

  lemma PlanLeads(cfg: Config, w: World, name: string, a: Action)
    requires Point(cfg, w, name) && Lookup(w.mem, Zsk(name)).Active() && Lookup(w.mem, Zsk(name)).nextAt <= w.now
    requires a == Aid(name, w).reconcile
    ensures Reconcile(cfg, w.now, a.zone, w.mem, a.ev, a.pick) == PlanThen(cfg, w.now, Lookup(w.mem, Zsk(name)))
    ensures var after := Perform(cfg, w.now, SiteOf(w, name), PlanThen(cfg, w.now, Lookup(w.mem, Zsk(name))), a.script);
            var y := Lookup(after.mem, Zsk(name));
            && after.mem.armedAt == UNSET && !Lookup(after.mem, WorkflowId(name, Enroll)).Active() && y.Id() == Zsk(name)
            && (if y.Active() then RecordAt(y) && EnvAt(after.env, StageOf(y.phase)) else EnvDone(after.env))
  {
    var x := Lookup(w.mem, Zsk(name));
    PointAlone(cfg, w, name);
    PointReady(cfg, w, name);
    PlanIs(cfg, w.now, a.zone, x, w.mem.armedAt);
    RoundLeads(cfg, w.now, SiteOf(w, name), x);
  }

  lemma RoundLeads(cfg: Config, now: Time, site: Site, x: Workflow)
    requires OnTrack(cfg, now, x) && Lookup(site.mem, x.Id()) == x && EnvAt(site.env, StageOf(x.phase))
    requires site.mem.armedAt == UNSET && !Lookup(site.mem, WorkflowId(x.zone, Enroll)).Active()
    ensures var after := Perform(cfg, now, site, PlanThen(cfg, now, x), Answers(x.phase));
            var y := Lookup(after.mem, x.Id());
            && after.mem.armedAt == UNSET && !Lookup(after.mem, WorkflowId(x.zone, Enroll)).Active() && y.Id() == x.Id()
            && (if y.Active() then RecordAt(y) && EnvAt(after.env, StageOf(y.phase)) else EnvDone(after.env))
  {
    RoundDone(cfg, now, site, x);
    CompletedLookup(cfg, now, x, site.mem, x.Id());
    CompletedLookup(cfg, now, x, site.mem, WorkflowId(x.zone, Enroll));
  }

  lemma AidLeads(cfg: Config, w: World, name: string)
    requires Point(cfg, w, name) && Lookup(w.mem, Zsk(name)).Active() && Lookup(w.mem, Zsk(name)).nextAt <= w.now
    ensures Point(cfg, Next(cfg, w, Aid(name, w).reconcile), name)
  {
    var a := Aid(name, w).reconcile;
    TruthIsTrue(w.envs[name], StageOf(Lookup(w.mem, Zsk(name)).phase));
    NextOnward(cfg, w, a);
    Booted(cfg, w, name, a);
    PlanLeads(cfg, SaveTo(cfg, w, Boot(a.zone, a.ev.keys), a.boot), name, a);
  }

  // ---- to the end --------------------------------------------------------------------------------

  function AidOf(name: string): World -> Help { (v: World) => Aid(name, v) }

  lemma NextPoint(cfg: Config, v: World, name: string)
    requires Point(cfg, v, name)
    ensures var due := WhenDue(cfg, v, Zsk(name));
            Lookup(v.mem, Zsk(name)).Active() ==>
              && Helpful(cfg, due, Zsk(name), Aid(name, due).reconcile)
              && Point(cfg, Next(cfg, due, Aid(name, due).reconcile), name)
  {
    var due := WhenDue(cfg, v, Zsk(name));
    DueBooks(cfg, v, Zsk(name));
    if Lookup(v.mem, Zsk(name)).Active() {
      assert Point(cfg, due, name);
      AidHelps(cfg, due, name);
      AidLeads(cfg, due, name);
    }
  }

  /** One round from a point. */
  ghost function Round(cfg: Config, v: World, name: string): World {
    if !Lookup(v.mem, Zsk(name)).Active() then v
    else var due := WhenDue(cfg, v, Zsk(name)); Next(cfg, due, Aid(name, due).reconcile)
  }

  lemma RoundPoint(cfg: Config, v: World, name: string)
    requires Point(cfg, v, name)
    ensures Point(cfg, Round(cfg, v, name), name)
  {
    NextPoint(cfg, v, name);
  }

  lemma DrivenOnce(cfg: Config, w: World, name: string, k: nat)
    requires k > 0
    ensures Driven(cfg, w, Zsk(name), AidOf(name), k) == Round(cfg, Driven(cfg, w, Zsk(name), AidOf(name), k - 1), name)
  {}

  lemma DrivenPoint(cfg: Config, w: World, name: string, k: nat)
    requires k > 0 && Point(cfg, Driven(cfg, w, Zsk(name), AidOf(name), k - 1), name)
    ensures Point(cfg, Driven(cfg, w, Zsk(name), AidOf(name), k), name)
  {
    RoundPoint(cfg, Driven(cfg, w, Zsk(name), AidOf(name), k - 1), name);
    DrivenOnce(cfg, w, name, k);
  }

  lemma {:induction false} EveryPoint(cfg: Config, w: World, name: string, k: nat)
    requires Point(cfg, w, name)
    ensures Point(cfg, Driven(cfg, w, Zsk(name), AidOf(name), k), name)
  {
    if k > 0 {
      EveryPoint(cfg, w, name, k - 1);
      DrivenPoint(cfg, w, name, k);
    }
  }

  lemma EveryRoundHelped(cfg: Config, w: World, name: string, k: nat)
    requires Point(cfg, w, name)
    ensures Helped(cfg, w, Zsk(name), AidOf(name), k)
  {
    EveryPoint(cfg, w, name, k);
    NextPoint(cfg, Driven(cfg, w, Zsk(name), AidOf(name), k), name);
    HelpedIf(cfg, w, name, k);
  }

  lemma HelpedIf(cfg: Config, w: World, name: string, k: nat)
    requires var v := Driven(cfg, w, Zsk(name), AidOf(name), k);
             Lookup(v.mem, Zsk(name)).Active() ==>
               Helpful(cfg, WhenDue(cfg, v, Zsk(name)), Zsk(name), Aid(name, WhenDue(cfg, v, Zsk(name))).reconcile)
    ensures Helped(cfg, w, Zsk(name), AidOf(name), k)
  {
    var due := WhenDue(cfg, Driven(cfg, w, Zsk(name), AidOf(name), k), Zsk(name));
    assert AidOf(name)(due) == Aid(name, due) && Run(cfg, due, []) == due;
  }

  /** The rotation reaches idle with key 2 replaced by key 3, after at most as many rounds as it
      is large when it starts. */
  lemma RotationCompletes(cfg: Config, w: World, name: string) returns (n: nat)
    requires Point(cfg, w, name)
    ensures n <= Measure(Lookup(w.mem, Zsk(name)))
    ensures var end := Driven(cfg, w, Zsk(name), AidOf(name), n);
            !Lookup(end.mem, Zsk(name)).Active() && name in end.envs && EnvDone(end.envs[name])
  {
    forall k: nat
      ensures Helped(cfg, w, Zsk(name), AidOf(name), k)
    {
      EveryRoundHelped(cfg, w, name, k);
    }
    n := ReachesIdle(cfg, w, Zsk(name), AidOf(name));
    EveryPoint(cfg, w, name, n);
  }

  lemma PlainScheme()
    ensures KeyScheme(KeyList(Alone)).SplitScheme? && Lists(KeyList(Alone), KeyMap(Alone))
  {
    KeysListed(Alone);
    assert ActiveOf(KeyList(Alone), KskType) == [KeyList(Alone)[0]];
    assert ActiveOf(KeyList(Alone), ZskType) == [KeyList(Alone)[1]];
  }

  /** Such a point is reached: by triggering the rotation right after a first start. */
  lemma RotationStarts(cfg: Config, name: string, now: Time, idem: string, request: string) returns (w: World, a: Action)
    requires ValidConfig(cfg) && now > 0 && LabelMatches(cfg, LABEL, 13)
    ensures FirstStart(cfg, w) && a.Triggers? && Point(cfg, Next(cfg, w, a), name)
    ensures Lookup(Next(cfg, w, a).mem, Zsk(name)).phase.Prepublish?
  {
    PlainZoneSteady(cfg.margin, now);
    PlainScheme();
    w := World(now, EMPTY_STATE, EMPTY_STATE, map[name := PlainZone()], []);
    a := Triggers(Request(ZSK, [name], map[name := KeyList(Alone)], idem, request, Saved));
    StartIsPoint(cfg, w, name, a);
  }

  lemma StartIsPoint(cfg: Config, w: World, name: string, a: Action)
    requires Opened(cfg, w) && LabelMatches(cfg, LABEL, 13) && w.envs == map[name := PlainZone()]
    requires a.Triggers? && a.req.kind.ZSK? && a.req.zones == [name] && a.req.lists == map[name := KeyList(Alone)] && a.req.io.Saved?
    ensures Point(cfg, Next(cfg, w, a), name) && Lookup(Next(cfg, w, a).mem, Zsk(name)).phase.Prepublish?
  {
    PlainScheme();
    OpenedInv(cfg, w);
    NextOnward(cfg, w, a);
    Triggered(cfg, w.now, name, a.req);
    assert TriggerReady(a.req, w.envs);
    assert EnvAt(PlainZone(), Alone);
  }

  lemma Triggered(cfg: Config, now: Time, name: string, req: Request)
    requires req.kind.ZSK? && req.zones == [name]
    ensures var t := Apply(cfg, now, TriggerEdit(req), EMPTY_STATE);
            && t.Some? && t.value.armedAt == UNSET && !Lookup(t.value, WorkflowId(name, Enroll)).Active()
            && Lookup(t.value, Zsk(name)) == Started(Fresh(Zsk(name)), now, true, req.idem)
  {
    StartedEach(EMPTY_STATE, ZSK, [name], req.idem, now, Zsk(name));
    StartedEach(EMPTY_STATE, ZSK, [name], req.idem, now, WorkflowId(name, Enroll));
  }

  /** Together: after a first start and a trigger the rotation ends, the old key gone and the new
      one signing. */
  lemma ZskRotationEnds(cfg: Config, name: string, now: Time, idem: string, request: string)
    returns (w: World, a: Action, n: nat)
    requires ValidConfig(cfg) && now > 0 && LabelMatches(cfg, LABEL, 13)
    ensures FirstStart(cfg, w) && a.Triggers? && Lookup(Next(cfg, w, a).mem, Zsk(name)).phase.Prepublish?
    ensures var end := Driven(cfg, Next(cfg, w, a), Zsk(name), AidOf(name), n);
            && !Lookup(end.mem, Zsk(name)).Active() && name in end.envs && EnvDone(end.envs[name])
            && n <= Measure(Lookup(Next(cfg, w, a).mem, Zsk(name)))
  {
    w, a := RotationStarts(cfg, name, now, idem, request);
    n := RotationCompletes(cfg, Next(cfg, w, a), name);
  }
}
