/** The controller as the source writes it: handlers that read evidence, change records
    through store updates and make their external writes in order. Each is proved to leave
    exactly what its plan prescribes, whatever every step meets. */
module Controllers {
  import opened Model
  import opened Inventory
  import opened Edits
  import opened Plans
  import opened World
  import opened Good
  import opened Races
  import opened Stores

  /** What an error leaves to do: advance records a retry. */
  function Left(err: bool, w: Workflow): Todo { if err then Fail(w) else Rest }

  class Controller {
    const cfg: Config
    const store: Store
    var env: Env
    var script: seq<Beat>          // what the coming store updates and calls will meet, and Triggers between them
    var crashed: bool              // the script has run out: the process stopped
    ghost var trace: seq<Event>
    ghost var goal: Site           // where the reconciliation in progress has to end

    constructor (cfg: Config, store: Store, env: Env, script: seq<Beat>)
      requires store.Valid()
      ensures this.cfg == cfg && this.store == store && this.script == script && !crashed
      ensures Here() == Site(store.data.Value(), store.disk, env, [])
    {
      this.cfg, this.store, this.env, this.script, crashed, trace := cfg, store, env, script, false, [];
    }

    function Memory(): State
      reads this, store, store.data
    {
      store.data.Value()
    }

    ghost function Here(): Site
      reads this, store, store.data
    {
      Site(Memory(), store.disk, env, trace)
    }

    /** Carrying out `todo` from here ends where the reconciliation has to end. */
    ghost predicate Owes(now: Time, todo: Todo)
      reads this, store, store.data
    {
      store.Valid() && if crashed then Here() == goal else Perform(cfg, now, Here(), todo, script) == goal
    }

    // ---- steps ------------------------------------------------------------------------

    method Stop()
      requires store.Valid() && script == [] && goal == Crash(Here())
      modifies this, store
      ensures store.Valid() && crashed && Here() == goal == old(goal)
    {
      crashed := true;
      trace := trace + Ended(Memory(), store.disk);
      store.Reload();
    }

    /** What a Trigger leaves as it was: the records of a zone with an active workflow. */
    ghost predicate Calm(zone: string, a: State, b: State) { AnyActive(a, zone) ==> Alike(zone, a, b) }

    /** Lets the Triggers through that other connections make before the next step. */
    method Yield(now: Time, ghost todo: Todo)
      requires !crashed && Owes(now, todo) && !todo.Rest?
      modifies this, store
      ensures goal == old(goal) && !crashed && Owes(now, todo) && (script == [] || script[0].Meets?)
      ensures env == old(env) && trace == old(trace) && forall zone :: Calm(zone, old(Memory()), Memory())
    {
      while script != [] && script[0].Slips?
        invariant !crashed && Owes(now, todo) && goal == old(goal) && env == old(env) && trace == old(trace)
        invariant forall zone :: Calm(zone, old(Memory()), Memory())
        decreases |script|
        modifies this, store
      {
        var req := script[0].req;
        ghost var before := Here();
        ghost var all := script;
        script := script[1..];
        if !req.kind.Enroll? {
          var c := cfg;
          var ok := store.Update((s: State) => Apply(c, now, TriggerEdit(req), s), req.io);
        }
        assert Here() == Slipped(cfg, now, before, req);
        assert Perform(cfg, now, before, todo, all) == Perform(cfg, now, Here(), todo, script);
        forall zone
          ensures Calm(zone, old(Memory()), Memory())
        {
          assert Calm(zone, old(Memory()), before.mem);
          if AnyActive(before.mem, zone) {
            SlipLeaves(cfg, now, before, req, zone);
          }
        }
      }
    }

    /** One store update; `fn` is the closure, `edit` what it amounts to here. */
    method Save(now: Time, fn: Closure, ghost zone: string, ghost edit: Edit, ghost ok: Todo, ghost fail: Todo)
      returns (err: bool)
      requires !crashed && Owes(now, Persist(edit, ok, fail))
      requires forall s | Calm(zone, Memory(), s) :: fn(s) == Apply(cfg, now, edit, s)
      modifies this, store
      ensures goal == old(goal) && Owes(now, if err then fail else ok) && (crashed ==> err)
      ensures !err ==> exists s :: Calm(zone, old(Memory()), s) && Some(Memory()) == Apply(cfg, now, edit, s)
    {
      Yield(now, Persist(edit, ok, fail));
      if script == [] {
        Stop();
        return true;
      }
      var o := script[0].outcome;
      ghost var next := Apply(cfg, now, edit, Memory());
      ghost var before := Here();
      ghost var all := script;
      assert Perform(cfg, now, before, Persist(edit, ok, fail), all) == goal;
      script := script[1..];
      var saved := store.Update(fn, o.io);
      if next.Some? {
        trace := trace + Ends(edit, o.io);
        assert Here() == Commit(before, o.io, next.value).(trace := before.trace + Ends(edit, o.io));
      } else {
        assert Here() == before;
      }
      return !saved;
    }

    method SetKey(now: Time, w: Workflow, key: int, on: bool, ghost ok: Todo) returns (err: bool)
      requires !crashed && Owes(now, Set(w, key, on, ok))
      modifies this, store
      ensures goal == old(goal) && Owes(now, if err then Fail(w) else ok) && (crashed ==> err)
      ensures !err ==> Calm(w.zone, old(Memory()), Memory())
    {
      Yield(now, Set(w, key, on, ok));
      if script == [] {
        Stop();
        return true;
      }
      var o := script[0].outcome;
      script := script[1..];
      trace := trace + [Switched(OnDisk(Here(), w), key, on)];
      var call := SetCall(env, now, key, on, o);
      if call.Some? {
        env := call.value;
      }
      return !o.seen || call.None?;
    }

    method DeleteKey(now: Time, w: Workflow, key: int, ghost ok: Todo) returns (err: bool)
      requires !crashed && Owes(now, Delete(w, key, ok))
      modifies this, store
      ensures goal == old(goal) && Owes(now, if err then Fail(w) else ok) && (crashed ==> err)
      ensures !err ==> Calm(w.zone, old(Memory()), Memory())
    {
      Yield(now, Delete(w, key, ok));
      if script == [] {
        Stop();
        return true;
      }
      var o := script[0].outcome;
      script := script[1..];
      trace := trace + [Deleted(OnDisk(Here(), w), key)];
      var call := DeleteCall(env, now, key, o);
      if call.Some? {
        env := call.value;
      }
      return !o.seen || call.None?;
    }

    method CreateKey(now: Time, w: Workflow, role: KeyType, algorithm: string, active: bool, zskSlot: bool)
      returns (reply: Option<Key>)
      requires !crashed && Owes(now, Create(w, role, algorithm, active, zskSlot))
      modifies this, store
      ensures goal == old(goal) && Owes(now, AfterCreate(cfg, now, w, role, algorithm, active, zskSlot, reply)) && (crashed ==> reply.None?)
      ensures reply.Some? ==> Calm(w.zone, old(Memory()), Memory())
    {
      Yield(now, Create(w, role, algorithm, active, zskSlot));
      if script == [] {
        Stop();
        return None;
      }
      var o := script[0].outcome;
      script := script[1..];
      trace := trace + [Created(OnDisk(Here(), w), zskSlot)];
      var call := CreateCall(env, now, role, active, o);
      if call.Some? {
        env := call.value;
      }
      return if o.seen && call.Some? then Some(o.key) else None;
    }

    method UpdateDnssec(now: Time, w: Workflow, key: int) returns (reply: Option<Job>)
      requires !crashed && Owes(now, Update(w, key))
      modifies this, store
      ensures goal == old(goal) && Owes(now, AfterUpdate(now, w, reply)) && (crashed ==> reply.None?)
      ensures reply.Some? ==> Calm(w.zone, old(Memory()), Memory())
    {
      Yield(now, Update(w, key));
      if script == [] {
        Stop();
        return None;
      }
      var o := script[0].outcome;
      script := script[1..];
      trace := trace + [Updated(OnDisk(Here(), w), key)];
      var call := UpdateCall(env, key, o);
      if call.Some? {
        env := call.value;
      }
      return if o.seen && call.Some? then Some(o.job) else None;
    }

    /** Where a workflow is active, its record rides out the Triggers. */
    static lemma Rides(zone: string, a: State, b: State, id: WorkflowId)
      requires Lookup(a, id).Active() && id.zone == zone && (AnyActive(a, zone) ==> Alike(zone, a, b))
      ensures Lookup(b, id) == Lookup(a, id)
    {
      match id.kind case ZSK => case KSK => case Split => case Enroll =>
    }

    static lemma AllRide(zone: string, a: State, id: WorkflowId)
      requires Lookup(a, id).Active() && id.zone == zone
      ensures forall b | AnyActive(a, zone) ==> Alike(zone, a, b) :: Lookup(b, id) == Lookup(a, id)
    {
      forall b | AnyActive(a, zone) ==> Alike(zone, a, b)
        ensures Lookup(b, id) == Lookup(a, id)
      {
        Rides(zone, a, b, id);
      }
    }

    // ---- record updates -----------------------------------------------------------------

    /** Works on the record as it is then, not as the handler first saw it. */
    method Transition(now: Time, w: Workflow, phase: Phase, next: Time, change: Workflow -> Workflow)
      returns (err: bool)
      requires !crashed && change(Moved(Lookup(Memory(), w.Id()), now, phase, next)).Id() == w.Id()
      requires Lookup(Memory(), w.Id()).Active()
      requires Owes(now, Go(w, change(Moved(Lookup(Memory(), w.Id()), now, phase, next))))
      modifies this, store
      ensures goal == old(goal) && Owes(now, Left(err, w))
    {
      ghost var x := change(Moved(Lookup(Memory(), w.Id()), now, phase, next));
      AllRide(w.zone, Memory(), w.Id());
      err := Save(now, (s: State) => Some(s.(workflows := s.workflows[w.Id() := change(Moved(Lookup(s, w.Id()), now, phase, next))])),
                  w.zone, Put(x), Rest, Fail(w));
    }

    method BlockWorkflow(now: Time, w: Workflow) returns (err: bool)
      requires !crashed && Owes(now, Plans.Stop(w))
      modifies this, store
      ensures goal == old(goal) && err && Owes(now, Fail(w))
    {
      var c := cfg;
      err := Save(now, (s: State) => Some(BlockState(c, s, w.Id(), now)), w.zone, Edit.Block(w.Id()), Fail(w), Fail(w));
      err := true;
    }

    method CompleteWorkflow(now: Time, w: Workflow) returns (err: bool)
      requires !crashed && Owes(now, Finish(w))
      modifies this, store
      ensures goal == old(goal) && Owes(now, Left(err, w))
    {
      var c := cfg;
      err := Save(now, (s: State) => Some(CompleteState(c, s, w, now)), w.zone, Complete(w), Rest, Fail(w));
    }

    method RecordRetry(now: Time, w: Workflow)
      requires Owes(now, Fail(w))
      modifies this, store
      ensures goal == old(goal) && Owes(now, Rest)
    {
      if !crashed {
        var err := Save(now, (s: State) => Some(s.(workflows := s.workflows[w.Id() := Retried(Lookup(s, w.Id()), now)])),
                        w.zone, Retry(w.Id()), Rest, Rest);
      }
    }

    // ---- handlers -----------------------------------------------------------------------

    predicate Current(w: Workflow)
      reads this, store, store.data
    {
      Lookup(Memory(), w.Id()) == w && w.Active()
    }

    method Prepublish(now: Time, w: Workflow, ev: Evidence) returns (err: bool)
      requires !crashed && Current(w) && Owes(now, PrepublishPlan(cfg, now, w, ev))
      modifies this, store
      ensures goal == old(goal) && Owes(now, Left(err, w))
    {
      if w.oldKey == 0 {
        var prior := FindExactlyOneActive(ev.keys, if w.kind.Split? then CskType else RoleOf(w.kind));
        if prior.None? {
          err := BlockWorkflow(now, w);
          return;
        }
        var id := prior.value.id;
        err := Transition(now, w, Phase.Prepublish, now, (x: Workflow) => x.(oldKey := id));
        return;
      }
      var prior := FindById(ev.keys, w.oldKey);
      if prior.None? {
        err := BlockWorkflow(now, w);
        return;
      }
      var algorithm := if prior.value.algorithm == "" then cfg.algorithm else prior.value.algorithm;
      if w.kind.Split? && w.parentMode.NoMode? {
        err := FindParentMode(now, w, prior.value, ev);
      } else if w.newKey == 0 {
        err := FillSlot(now, w, ev.keys, RoleOf(w.kind), algorithm, !w.kind.ZSK?, false);
      } else if w.kind.Split? && w.newZsk == 0 {
        err := FillSlot(now, w, ev.keys, ZskType, algorithm, false, true);
      } else {
        err := Transition(now, w, Phase.WaitPublish, now, (x: Workflow) => x.(evidenceAt := UNSET));
      }
    }

    method FindParentMode(now: Time, w: Workflow, prior: Key, ev: Evidence) returns (err: bool)
      requires !crashed && Current(w) && Owes(now, ClassifyParent(now, w, prior, ev))
      modifies this, store
      ensures goal == old(goal) && Owes(now, Left(err, w))
    {
      if prior.data.None? || ev.remote.None? {
        return true;
      }
      var mode := NoMode;
      if Holds(ev.remote.value, prior.id) {
        mode := Existing;
      } else if Empty(ev.remote.value) {
        if !ev.noDs {
          return true;
        }
        mode := ParentMode.Initial;
      } else {
        err := BlockWorkflow(now, w);
        return;
      }
      err := Transition(now, w, Phase.Prepublish, now, (x: Workflow) => x.(parentMode := mode));
    }

    /** One replacement slot: adopt the one key that fits, or create it, then record its id. */
    method FillSlot(now: Time, w: Workflow, keys: seq<Key>, role: KeyType, algorithm: string, active: bool,
                    zskSlot: bool) returns (err: bool)
      requires !crashed && Current(w)
      requires Owes(now, Plans.AdoptOrCreate(cfg, now, w, keys, role, algorithm, active, zskSlot))
      modifies this, store
      ensures goal == old(goal) && Owes(now, Left(err, w))
    {
      var key := AdoptOrCreate(now, w, keys, role, algorithm, active, zskSlot);
      if key.None? {
        return true;
      }
      var id := key.value.id;
      if w.kind.Split? && !zskSlot {
        err := Transition(now, w, Phase.Prepublish, now, (x: Workflow) => x.(newKey := id));
      } else if zskSlot {
        err := Transition(now, w, Phase.WaitPublish, now, (x: Workflow) => x.(newZsk := id, evidenceAt := UNSET));
      } else {
        err := Transition(now, w, Phase.WaitPublish, now, (x: Workflow) => x.(newKey := id, evidenceAt := UNSET));
      }
    }

    /** The candidates of the read-back; an error as soon as one of them is unacceptable. */
    method CollectCandidates(w: Workflow, keys: seq<Key>, role: KeyType, algorithm: string, active: bool, zskSlot: bool)
      returns (r: Option<seq<Key>>)
      ensures r == Adoptable(cfg, w, keys, role, algorithm, active, zskSlot)
    {
      var candidates := [];
      for i := 0 to |keys|
        invariant Adoptable(cfg, w, keys[..i], role, algorithm, active, zskSlot) == Some(candidates)
      {
        var k := keys[i];
        assert keys[..i + 1][..i] == keys[..i];
        var verdict := Judge(cfg, w, k, role, algorithm, active, zskSlot);
        if verdict.Reject? {
          RejectedStays(w, keys, i, role, algorithm, active, zskSlot);
          return None;
        }
        if verdict.Accept? {
          candidates := candidates + [k];
        }
      }
      assert keys[..|keys|] == keys;
      return Some(candidates);
    }

    lemma {:induction false} RejectedStays(w: Workflow, keys: seq<Key>, i: nat, role: KeyType, algorithm: string,
                                           active: bool, zskSlot: bool)
      requires i < |keys| && Judge(cfg, w, keys[i], role, algorithm, active, zskSlot).Reject?
      ensures Adoptable(cfg, w, keys, role, algorithm, active, zskSlot).None?
    {
      if i < |keys| - 1 {
        RejectedStays(w, keys[..|keys| - 1], i, role, algorithm, active, zskSlot);
      }
    }

    method AdoptOrCreate(now: Time, w: Workflow, keys: seq<Key>, role: KeyType, algorithm: string, active: bool,
                         zskSlot: bool)
      returns (key: Option<Key>)
      requires !crashed && Current(w)
      requires Owes(now, Plans.AdoptOrCreate(cfg, now, w, keys, role, algorithm, active, zskSlot))
      modifies this, store
      ensures goal == old(goal)
      ensures key.None? ==> Owes(now, Fail(w))
      ensures key.Some? ==> !crashed && var x := Lookup(Memory(), w.Id());
                            x.Id() == w.Id() && x.kind == w.kind && x.Active() && Owes(now, Go(x, Filled(x, now, zskSlot, key.value.id)))
    {
      var candidates := CollectCandidates(w, keys, role, algorithm, active, zskSlot);
      if candidates.None? || |candidates.value| > 1 {
        return None;
      }
      if |candidates.value| == 1 {
        return Some(candidates.value[0]);
      }
      if Marker(w, zskSlot) != UNSET {
        return None;
      }
      ghost var x := Marked(w, zskSlot, now);
      ghost var call := Create(x, role, algorithm, active, zskSlot);
      var c := cfg;
      AllRide(w.zone, Memory(), w.Id());
      var err := Save(now, (s: State) => RecordCreateAttempt(s, w, zskSlot, now), w.zone, MarkCreate(w, zskSlot), call, Fail(w));
      if err {
        return None;
      }
      assert Lookup(Memory(), w.Id()) == x;
      AllRide(w.zone, Memory(), w.Id());
      key := CreateKey(now, Marked(w, zskSlot, now), role, algorithm, active, zskSlot);
      if key.Some? && !GoodReply(cfg, Marked(w, zskSlot, now), key.value, role, algorithm, active, zskSlot) {
        key := None;
      }
    }

    /** The closure that records the intent to create a key, unless the record changed. */
    static function RecordCreateAttempt(s: State, w: Workflow, zskSlot: bool, now: Time): Option<State> {
      var current := Lookup(s, w.Id());
      if current.phase != Phase.Prepublish || !SameIds(current, w) || Marker(current, zskSlot) != UNSET then None
      else Some(s.(workflows := s.workflows[w.Id() := Marked(current, zskSlot, now)]))
    }

    method WaitPublish(now: Time, w: Workflow, ev: Evidence) returns (err: bool)
      requires !crashed && Current(w) && Owes(now, WaitPublishPlan(cfg, now, w, ev))
      modifies this, store
      ensures goal == old(goal) && Owes(now, Left(err, w))
    {
      var prior := FindById(ev.keys, w.oldKey);
      var newKey := FindById(ev.keys, w.newKey);
      var zsk := FindById(ev.keys, w.newZsk);
      var closed := CheckPrepublish(ev.keys, w);
      if prior.None? || newKey.None? || (w.kind.Split? && zsk.None?) || !closed {
        err := BlockWorkflow(now, w);
        return;
      }
      err := ProvePublished(now, w, ev);
    }

    method ProvePublished(now: Time, w: Workflow, ev: Evidence) returns (err: bool)
      requires !crashed && Current(w) && Owes(now, ProvePublication(cfg, now, w, ev))
      modifies this, store
      ensures goal == old(goal) && Owes(now, Left(err, w))
    {
      var published := CollectPublished(ev.keys);
      var seen := if InitialSplit(w) then ev.authDnskey else ev.dnskey;
      if !Shows(seen, Ids(published)) {
        return true;
      }
      if w.kind.KSK? || w.kind.Split? {
        var signed := if InitialSplit(w) then ev.authDnskeySigned else ev.dnskeySigned;
        if w.oldKey !in signed || w.newKey !in signed {
          return true;
        }
      }
      var ttl := seen.value.ttl;
      if w.evidenceAt == UNSET {
        var wait := Max(ttl, cfg.minDnskeyWait) + cfg.margin;
        err := Transition(now, w, Phase.WaitPublish, now + wait, (x: Workflow) => x.(dnskeyTtl := ttl, evidenceAt := now));
        return;
      }
      var next := if w.kind.KSK? || w.kind.Split? then ParentRemove else Phase.ActivateNew;
      err := Transition(now, w, next, now, (x: Workflow) => x.(evidenceAt := UNSET));
    }

    method ActivateNew(now: Time, w: Workflow, ev: Evidence) returns (err: bool)
      requires !crashed && Current(w) && Owes(now, ActivateNewPlan(now, w, ev))
      modifies this, store
      ensures goal == old(goal) && Owes(now, Left(err, w))
    {
      if w.kind.Split? {
        var pre := CheckPrepublish(ev.keys, w);
        var post := CheckSplit(ev.keys, w, true);
        if !pre && !post {
          err := BlockWorkflow(now, w);
          return;
        }
      }
      var k := FindById(ev.keys, SignerId(w));
      if k.None? {
        err := BlockWorkflow(now, w);
        return;
      }
      if !k.value.active {
        AllRide(w.zone, Memory(), w.Id());
        err := SetKey(now, w, k.value.id, true, Go(w, Moved(w, now, Phase.WaitNewSignature, now).(evidenceAt := UNSET)));
        if err {
          return;
        }
      }
      err := Transition(now, w, Phase.WaitNewSignature, now, (x: Workflow) => x.(evidenceAt := UNSET));
    }

    method WaitNewSignature(now: Time, w: Workflow, ev: Evidence) returns (err: bool)
      requires !crashed && Current(w) && Owes(now, WaitNewSignaturePlan(cfg, now, w, ev))
      modifies this, store
      ensures goal == old(goal) && Owes(now, Left(err, w))
    {
      var prior := FindById(ev.keys, w.oldKey);
      var newKey := FindById(ev.keys, w.newKey);
      if prior.None? || newKey.None? {
        return true;
      }
      var signer := FindById(ev.keys, SignerId(w));
      if signer.None? {
        err := BlockWorkflow(now, w);
        return;
      }
      if SignerId(w) !in ev.zoneSigned {
        return true;
      }
      if !signer.value.active || !signer.value.published {
        err := BlockWorkflow(now, w);
        return;
      }
      if w.zoneTtl == 0 {
        if ev.zoneTtls.None? {
          return true;
        }
        var ttl := GreatestZoneTtl(ev.zoneTtls.value);
        err := Transition(now, w, Phase.WaitNewSignature, now, (x: Workflow) => x.(zoneTtl := ttl));
        return;
      }
      if w.kind.Split? {
        err := AwaitSigner(now, w, ev);
        return;
      }
      err := Transition(now, w, Phase.DeactivateOld, now, (x: Workflow) => x.(evidenceAt := UNSET));
    }

    method AwaitSigner(now: Time, w: Workflow, ev: Evidence) returns (err: bool)
      requires !crashed && Current(w) && Owes(now, SplitWait(cfg, now, w, ev))
      modifies this, store
      ensures goal == old(goal) && Owes(now, Left(err, w))
    {
      if w.signerAt == UNSET {
        if w.oldKey !in ev.zoneSigned {
          return true;
        }
        if w.evidenceAt == UNSET {
          var wait := w.zoneTtl + cfg.margin;
          err := Transition(now, w, Phase.WaitNewSignature, now + wait, (x: Workflow) => x.(evidenceAt := now));
          return;
        }
      } else {
        var deadline := w.signerAt + w.zoneTtl + cfg.margin;
        if now < deadline {
          err := Transition(now, w, Phase.WaitNewSignature, deadline, (x: Workflow) => x);
          return;
        }
        var current := SignerEvidence(cfg, w, ev);
        if current.None? {
          return true;
        }
        if current.value > w.zoneTtl {
          err := RestartWait(now, w, current.value);
          return;
        }
      }
      err := Transition(now, w, Phase.DeactivateOld, now, (x: Workflow) => x.(evidenceAt := UNSET));
    }

    /** The loop over record TTLs, never below a day. */
    method GreatestZoneTtl(ttls: seq<Ttl>) returns (ttl: Ttl)
      ensures ttl == MaxTtl(ttls)
    {
      ttl := DAY;
      for i := 0 to |ttls|
        invariant ttl == MaxTtl(ttls[..i])
      {
        assert ttls[..i + 1][..i] == ttls[..i];
        if ttls[i] > ttl {
          ttl := ttls[i];
        }
      }
      assert ttls[..|ttls|] == ttls;
    }

    method RestartWait(now: Time, w: Workflow, ttl: Ttl) returns (err: bool)
      requires !crashed && Current(w) && Owes(now, RestartSigner(cfg, now, w, ttl))
      modifies this, store
      ensures goal == old(goal) && Owes(now, Left(err, w))
    {
      var wait := ttl + cfg.margin;
      err := Transition(now, w, Phase.WaitNewSignature, now + wait, (x: Workflow) => x.(zoneTtl := ttl, evidenceAt := now, signerAt := now));
    }

    method DeactivateOld(now: Time, w: Workflow, ev: Evidence) returns (err: bool)
      requires !crashed && Current(w) && Owes(now, DeactivateOldPlan(cfg, now, w, ev))
      modifies this, store
      ensures goal == old(goal) && Owes(now, Left(err, w))
    {
      if w.kind.Split? {
        var pre := CheckSplit(ev.keys, w, true);
        var post := CheckSplit(ev.keys, w, false);
        if !pre && !post {
          err := BlockWorkflow(now, w);
          return;
        }
        if w.signerAt != UNSET && pre {
          var current := SignerEvidence(cfg, w, ev);
          if current.None? {
            return true;
          }
          if current.value > w.zoneTtl {
            err := RestartWait(now, w, current.value);
            return;
          }
        }
      }
      err := DeactivateProven(now, w, ev);
    }

    /** The checks every kind shares, then the switch, then the wait. */
    method DeactivateProven(now: Time, w: Workflow, ev: Evidence) returns (err: bool)
      requires !crashed && Current(w) && Owes(now, Deactivate(cfg, now, w, ev))
      modifies this, store
      ensures goal == old(goal) && Owes(now, Left(err, w))
    {
      var prior := FindById(ev.keys, w.oldKey);
      var newKey := FindById(ev.keys, w.newKey);
      if prior.None? || newKey.None? {
        return true;
      }
      if !newKey.value.active || !newKey.value.published {
        err := BlockWorkflow(now, w);
        return;
      }
      if w.kind.ZSK? {
        if w.newKey !in ev.zoneSigned {
          return true;
        }
      } else if w.newKey !in ev.dnskeySigned || w.newKey !in ev.dsExact {
        return true;
      }
      if w.kind.Split? {
        var zsk := FindById(ev.keys, w.newZsk);
        if zsk.None? || !zsk.value.active || !zsk.value.published {
          err := BlockWorkflow(now, w);
          return;
        }
        if w.newZsk !in ev.zoneSigned {
          return true;
        }
      }
      var published := CollectPublished(ev.keys);
      if !Shows(ev.dnskey, Ids(published)) {
        return true;
      }
      err := SwitchOldOff(now, w, ev, prior.value);
    }

    method SwitchOldOff(now: Time, w: Workflow, ev: Evidence, prior: Key) returns (err: bool)
      requires !crashed && Current(w) && Owes(now, SwitchOff(cfg, now, w, ev, prior))
      modifies this, store
      ensures goal == old(goal) && Owes(now, Left(err, w))
    {
      if !w.kind.KSK? {
        if ev.zoneTtls.None? {
          return true;
        }
        var current := GreatestZoneTtl(ev.zoneTtls.value);
        if current > w.zoneTtl {
          var wait := current + cfg.margin;
          err := Transition(now, w, Phase.DeactivateOld, now + wait, (x: Workflow) => x.(zoneTtl := current, evidenceAt := now));
          return;
        }
      }
      if prior.active {
        AllRide(w.zone, Memory(), w.Id());
        err := SetKey(now, w, prior.id, false,
                      Go(w, if w.kind.KSK? then Moved(w, now, Phase.DeleteOld, now)
                            else Moved(w, now, Phase.WaitRetire, now + w.zoneTtl + cfg.margin)));
        if err {
          return;
        }
      }
      if w.kind.KSK? {
        err := Transition(now, w, Phase.DeleteOld, now, (x: Workflow) => x);
      } else {
        var wait := w.zoneTtl + cfg.margin;
        err := Transition(now, w, Phase.WaitRetire, now + wait, (x: Workflow) => x);
      }
    }

    method WaitRetire(now: Time, w: Workflow, ev: Evidence) returns (err: bool)
      requires !crashed && Current(w) && Owes(now, WaitRetirePlan(now, w, ev))
      modifies this, store
      ensures goal == old(goal) && Owes(now, Left(err, w))
    {
      var prior := FindById(ev.keys, w.oldKey);
      var newKey := FindById(ev.keys, w.newKey);
      if prior.None? || newKey.None? {
        return true;
      }
      var signer := FindById(ev.keys, SignerId(w));
      if w.kind.Split? && signer.None? {
        err := BlockWorkflow(now, w);
        return;
      }
      if SignerId(w) !in ev.zoneSigned {
        return true;
      }
      err := Transition(now, w, Phase.DeleteOld, now, (x: Workflow) => x);
    }

    method DeleteOld(now: Time, w: Workflow, ev: Evidence) returns (err: bool)
      requires !crashed && Current(w) && Owes(now, DeleteOldPlan(w, ev))
      modifies this, store
      ensures goal == old(goal) && Owes(now, Left(err, w))
    {
      var newKey := FindById(ev.keys, w.newKey);
      if newKey.None? || !newKey.value.active || !newKey.value.published {
        err := BlockWorkflow(now, w);
        return;
      }
      var prior := FindById(ev.keys, w.oldKey);
      var retirement := CollectRetirement(ev.keys, w);
      if !w.kind.Split? && retirement.None? {
        err := BlockWorkflow(now, w);
        return;
      }
      if !w.kind.ZSK? && (w.newKey !in ev.dnskeySigned || w.newKey !in ev.dsExact || w.newKey !in ev.authDs) {
        return true;
      }
      var expected := if retirement.Some? then Ids(retirement.value) else {};
      if w.kind.Split? {
        var zsk := FindById(ev.keys, w.newZsk);
        if zsk.None? || !zsk.value.active || !zsk.value.published {
          err := BlockWorkflow(now, w);
          return;
        }
        if w.newZsk !in ev.zoneSigned || ev.remote.None? || newKey.value.data.None? {
          return true;
        }
        if !Holds(ev.remote.value, w.newKey) {
          err := BlockWorkflow(now, w);
          return;
        }
        expected := {w.newKey, w.newZsk} + (if prior.Some? then {w.oldKey} else {});
      } else if w.kind.ZSK? && w.newKey !in ev.zoneSigned {
        return true;
      }
      if !Shows(ev.dnskey, expected) {
        return true;
      }
      if prior.Some? {
        if prior.value.active {
          err := BlockWorkflow(now, w);
          return;
        }
        err := DeleteKey(now, w, prior.value.id, Finish(w));
        if err {
          return;
        }
      }
      err := CompleteWorkflow(now, w);
    }

    // ---- the parent ---------------------------------------------------------------------

    method ParentReplace(now: Time, w: Workflow, ev: Evidence) returns (err: bool)
      requires !crashed && Current(w) && w.phase.ParentRemove? && !w.kind.Enroll?
      requires Owes(now, ParentReplacePlan(now, w, ev))
      modifies this, store
      ensures goal == old(goal) && Owes(now, Left(err, w))
    {
      if w.reg.ctid.NoCtid? {
        var ctid := ReplaceCtid(w.zone, w.kind, w.startedAt);
        err := Transition(now, w, Phase.ParentRemove, now, (x: Workflow) => x.(reg := x.reg.(ctid := ctid)));
        return;
      }
      var prior := FindById(ev.keys, w.oldKey);
      var newKey := FindById(ev.keys, w.newKey);
      if prior.None? || newKey.None? {
        return true;
      }
      var closed := CheckPrepublish(ev.keys, w);
      if !closed {
        err := BlockWorkflow(now, w);
        return;
      }
      err := ReplaceProven(now, w, ev, prior.value, newKey.value);
    }

    method ReplaceProven(now: Time, w: Workflow, ev: Evidence, prior: Key, newKey: Key) returns (err: bool)
      requires !crashed && Current(w) && w.phase.ParentRemove? && !w.kind.Enroll?
      requires Owes(now, ReplaceMaterial(now, w, ev, prior, newKey))
      modifies this, store
      ensures goal == old(goal) && Owes(now, Left(err, w))
    {
      var published := CollectPublished(ev.keys);
      var seen := if InitialSplit(w) then ev.authDnskey else ev.dnskey;
      var signed := if InitialSplit(w) then ev.authDnskeySigned else ev.dnskeySigned;
      if !Shows(seen, Ids(published)) || w.newKey !in signed {
        return true;
      }
      if w.kind.Split? {
        var zoneSigned := if InitialSplit(w) then ev.authZoneSigned else ev.zoneSigned;
        if w.oldKey !in zoneSigned {
          return true;
        }
      }
      if prior.data.None? || newKey.data.None? || ev.remote.None? {
        return true;
      }
      if Holds(ev.remote.value, w.newKey) {
        err := Transition(now, w, Phase.WaitParentRemove, now, (x: Workflow) => x.(evidenceAt := UNSET));
        return;
      }
      if InitialSplit(w) {
        if ev.remote.value.enabled || ev.remote.value.material != [] || !ev.noDs {
          err := BlockWorkflow(now, w);
          return;
        }
      } else if !Holds(ev.remote.value, w.oldKey) {
        err := BlockWorkflow(now, w);
        return;
      }
      err := AttemptReplace(now, w);
    }

    /** One attempt only: its intent is saved first, and a second one never made. */
    method AttemptReplace(now: Time, w: Workflow) returns (err: bool)
      requires !crashed && Current(w) && w.phase.ParentRemove? && !w.kind.Enroll? && Owes(now, OneAttempt(now, w))
      modifies this, store
      ensures goal == old(goal) && Owes(now, Left(err, w))
    {
      if w.reg.attemptedAt != UNSET {
        if now - w.reg.attemptedAt >= DAY {
          err := BlockWorkflow(now, w);
          return;
        }
        return true;
      }
      ghost var x := Requested(w, now);
      AllRide(w.zone, Memory(), w.Id());
      err := Save(now, (s: State) => RecordAttempt(s, w, now), w.zone, MarkReplace(w), Update(x, w.newKey), Fail(w));
      if err {
        return;
      }
      err := SendUpdate(now, Requested(w, now), w.newKey, Phase.WaitParentRemove);
    }

    static function RecordAttempt(s: State, w: Workflow, now: Time): Option<State> {
      Some(s.(workflows := s.workflows[w.Id() := Requested(Lookup(s, w.Id()), now)]))
    }

    /** The registrar write and what its response means. */
    method SendUpdate(now: Time, w: Workflow, key: int, next: Phase) returns (err: bool)
      requires !crashed && Current(w) && Owes(now, Update(w, key))
      requires next == if w.kind.Enroll? then Phase.EnrollWaitParent else Phase.WaitParentRemove
      modifies this, store
      ensures goal == old(goal) && Owes(now, Left(err, w))
    {
      AllRide(w.zone, Memory(), w.Id());
      var job := UpdateDnssec(now, w, key);
      if job.None? {
        return true;
      }
      if w.kind.Enroll? && job.value.id <= 0 {
        err := BlockWorkflow(now, w);
        return;
      }
      var j := job.value;
      err := Transition(now, w, next, now,
                        (x: Workflow) => x.(reg := x.reg.(stid := j.stid, jobId := j.id, jobStatus := j.status), evidenceAt := UNSET));
    }

    /** Polls an unfinished registrar job. */
    method PollJob(now: Time, w: Workflow, ev: Evidence, k: Key) returns (err: bool)
      requires !crashed && Current(w) && Owes(now, JobPlan(now, w, ev, k))
      modifies this, store
      ensures goal == old(goal) && Owes(now, Left(err, w))
    {
      match ev.job {
        case JobUnreadable => return true;
        case JobUnavailable =>
          if k.data.None? || ev.remote.None? || !Holds(ev.remote.value, k.id) {
            return true;
          }
        case JobReport(status) =>
          if status.Failed? {
            err := BlockWorkflow(now, w);
            return;
          }
          if !status.Succeeded? {
            return true;
          }
      }
      err := Transition(now, w, w.phase, now, (x: Workflow) => x.(reg := x.reg.(jobStatus := Succeeded)));
    }

    method RecordDs(now: Time, w: Workflow, ttl: Ttl) returns (err: bool)
      requires !crashed && Current(w) && Owes(now, DsObserved(cfg, now, w, ttl))
      modifies this, store
      ensures goal == old(goal) && Owes(now, Left(err, w))
    {
      var wait := Max(ttl, cfg.minParentWait) + cfg.margin;
      err := Transition(now, w, w.phase, now + wait, (x: Workflow) => x.(dsTtl := ttl, evidenceAt := now));
    }

    method WaitParentReplace(now: Time, w: Workflow, ev: Evidence) returns (err: bool)
      requires !crashed && Current(w) && w.phase.WaitParentRemove? && Owes(now, WaitParentReplacePlan(cfg, now, w, ev))
      modifies this, store
      ensures goal == old(goal) && Owes(now, Left(err, w))
    {
      if w.kind.Split? {
        var closed := CheckPrepublish(ev.keys, w);
        if !closed {
          err := BlockWorkflow(now, w);
          return;
        }
      }
      err := AwaitParent(now, w, ev);
    }

    method AwaitParent(now: Time, w: Workflow, ev: Evidence) returns (err: bool)
      requires !crashed && Current(w) && w.phase.WaitParentRemove? && Owes(now, ParentWait(cfg, now, w, ev))
      modifies this, store
      ensures goal == old(goal) && Owes(now, Left(err, w))
    {
      var prior := FindById(ev.keys, w.oldKey);
      var newKey := FindById(ev.keys, w.newKey);
      if prior.None? || newKey.None? {
        return true;
      }
      if w.reg.jobId > 0 && !w.reg.jobStatus.Succeeded? {
        err := PollJob(now, w, ev, newKey.value);
        return;
      }
      if w.newKey !in ev.authDs {
        return true;
      }
      if w.evidenceAt == UNSET {
        err := RecordDs(now, w, ev.authDs[w.newKey]);
        return;
      }
      if w.newKey !in ev.dsExact {
        return true;
      }
      if !newKey.value.active || !newKey.value.published {
        err := BlockWorkflow(now, w);
        return;
      }
      var published := CollectPublished(ev.keys);
      if !Shows(ev.dnskey, Ids(published)) || w.newKey !in ev.dnskeySigned {
        return true;
      }
      var next := if w.kind.Split? then Phase.ActivateNew else Phase.DeactivateOld;
      err := Transition(now, w, next, now, (x: Workflow) => x.(evidenceAt := UNSET));
    }

    // ---- enrollment ---------------------------------------------------------------------

    method EnrollDiscovered(now: Time, zone: Zone, w: Workflow, ev: Evidence) returns (err: bool)
      requires !crashed && Current(w) && Owes(now, EnrollDiscoveredPlan(cfg, now, zone, w, ev))
      modifies this, store
      ensures goal == old(goal) && Owes(now, Left(err, w))
    {
      if Unclassified(w) {
        err := Classify(now, w, ev);
        return;
      }
      var found := CheckEnrollment(cfg, ev.keys, w.newKey, w.newZsk, w.keyset);
      if found.None? || zone.id != w.zoneId {
        err := BlockWorkflow(now, w);
        return;
      }
      if ev.remote.None? {
        return true;
      }
      var ksk, zsk := found.value.0.id, found.value.1.id;
      if ev.remote.value.enabled {
        if !Holds(ev.remote.value, ksk) {
          err := BlockWorkflow(now, w);
          return;
        }
        if !EnrollmentEvidence(ev, ksk, zsk, true) || ksk !in ev.authDs || ksk !in ev.dsExact {
          return true;
        }
        err := CompleteWorkflow(now, w);
        return;
      }
      if ev.remote.value.material != [] {
        err := BlockWorkflow(now, w);
        return;
      }
      if !ev.noDs || !ev.delegation {
        return true;
      }
      err := Transition(now, w, Phase.EnrollWaitPublish, now, (x: Workflow) => x.(evidenceAt := UNSET, dnskeyTtl := 0));
    }

    method Classify(now: Time, w: Workflow, ev: Evidence) returns (err: bool)
      requires !crashed && Current(w) && Owes(now, ClassifyEnrollment(cfg, now, w, ev))
      modifies this, store
      ensures goal == old(goal) && Owes(now, Left(err, w))
    {
      var scheme := CountScheme(ev.keys);
      if scheme.CskScheme? {
        AllRide(w.zone, Memory(), w.Id());
        err := Save(now, (s: State) => Reject(s, w, now), w.zone,
                    Put(w.(phase := Phase.Idle, completedAt := now, nextAt := UNSET, disposition := Ineligible)), Rest, Fail(w));
        return;
      }
      var found := CheckEnrollment(cfg, ev.keys, 0, 0, NoFingerprint);
      if found.None? {
        return true;
      }
      var f := found.value;
      err := Transition(now, w, Phase.EnrollDiscovered, now + cfg.discoveryGrace,
                        (x: Workflow) => x.(newKey := f.0.id, newZsk := f.1.id, keyset := f.2, evidenceAt := UNSET, dnskeyTtl := 0));
    }

    static function Reject(s: State, w: Workflow, now: Time): Option<State> {
      Some(s.(workflows := s.workflows[w.Id() := Lookup(s, w.Id()).(phase := Phase.Idle, completedAt := now, nextAt := UNSET,
                                                                     disposition := Ineligible)]))
    }

    method EnrollWaitPublish(now: Time, zone: Zone, w: Workflow, ev: Evidence) returns (err: bool)
      requires !crashed && Current(w) && Owes(now, EnrollWaitPublishPlan(cfg, now, zone, w, ev))
      modifies this, store
      ensures goal == old(goal) && Owes(now, Left(err, w))
    {
      var found := CheckEnrollment(cfg, ev.keys, w.newKey, w.newZsk, w.keyset);
      if found.None? || zone.id != w.zoneId {
        err := BlockWorkflow(now, w);
        return;
      }
      if !EnrollmentEvidence(ev, found.value.0.id, found.value.1.id, false) {
        return true;
      }
      var ttl := ev.authDnskey.value.ttl;
      if w.evidenceAt == UNSET {
        var wait := Max(ttl, cfg.minDnskeyWait) + cfg.margin;
        err := Transition(now, w, Phase.EnrollWaitPublish, now + wait, (x: Workflow) => x.(evidenceAt := now, dnskeyTtl := ttl));
        return;
      }
      err := Transition(now, w, Phase.EnrollParentAdd, now, (x: Workflow) => x.(evidenceAt := UNSET));
    }

    method EnrollParentAdd(now: Time, zone: Zone, w: Workflow, ev: Evidence) returns (err: bool)
      requires !crashed && Current(w) && w.phase.EnrollParentAdd? && w.kind.Enroll?
      requires Owes(now, EnrollParentAddPlan(cfg, now, zone, w, ev, Memory().armedAt))
      modifies this, store
      ensures goal == old(goal) && Owes(now, Left(err, w))
    {
      var armed := Memory().armedAt;
      if w.reg.attemptedAt == UNSET && armed == UNSET {
        err := BlockWorkflow(now, w);
        return;
      }
      var found := CheckEnrollment(cfg, ev.keys, w.newKey, w.newZsk, w.keyset);
      if found.None? || zone.id != w.zoneId {
        err := BlockWorkflow(now, w);
        return;
      }
      if !EnrollmentEvidence(ev, found.value.0.id, found.value.1.id, false) {
        return true;
      }
      if !ev.noDs {
        err := BlockWorkflow(now, w);
        return;
      }
      err := AddProven(now, zone, w, ev, armed, found.value.0);
    }

    method AddProven(now: Time, zone: Zone, w: Workflow, ev: Evidence, armed: Time, ksk: Key) returns (err: bool)
      requires !crashed && Current(w) && w.phase.EnrollParentAdd? && w.kind.Enroll?
      requires Owes(now, AddMaterial(now, zone, w, ev, armed, ksk))
      modifies this, store
      ensures goal == old(goal) && Owes(now, Left(err, w))
    {
      if ksk.data.None? {
        return true;
      }
      if w.reg.payload.Some? && w.reg.payload != ksk.data {
        err := BlockWorkflow(now, w);
        return;
      }
      if ev.remote.None? {
        return true;
      }
      if Holds(ev.remote.value, ksk.id) {
        err := Transition(now, w, Phase.EnrollWaitParent, now, (x: Workflow) => x.(evidenceAt := UNSET));
        return;
      }
      if !Empty(ev.remote.value) {
        err := BlockWorkflow(now, w);
        return;
      }
      if w.reg.ctid.NoCtid? {
        var ctid := EnrollCtid(armed, zone.name, w.keyset);
        var payload := ksk.data;
        err := Transition(now, w, Phase.EnrollParentAdd, now, (x: Workflow) => x.(reg := x.reg.(ctid := ctid, payload := payload)));
        return;
      }
      if w.reg.payload.None? {
        err := BlockWorkflow(now, w);
        return;
      }
      if w.reg.attemptedAt != UNSET {
        if now - w.reg.attemptedAt >= DAY {
          err := BlockWorkflow(now, w);
          return;
        }
        return true;
      }
      ghost var x := Requested(w, now);
      AllRide(w.zone, Memory(), w.Id());
      err := Save(now, (s: State) => RecordEnrollAttempt(s, w, now), w.zone, MarkEnroll(w), Update(x, ksk.id), Fail(w));
      if err {
        return;
      }
      err := SendUpdate(now, Requested(w, now), ksk.id, Phase.EnrollWaitParent);
    }

    static function RecordEnrollAttempt(s: State, w: Workflow, now: Time): Option<State> {
      var current := Lookup(s, w.Id());
      if current.phase != Phase.EnrollParentAdd || current.reg.ctid != w.reg.ctid || current.reg.attemptedAt != UNSET then None
      else RecordAttempt(s, w, now)
    }

    method EnrollWaitParent(now: Time, zone: Zone, w: Workflow, ev: Evidence) returns (err: bool)
      requires !crashed && Current(w) && Owes(now, EnrollWaitParentPlan(cfg, now, zone, w, ev))
      modifies this, store
      ensures goal == old(goal) && Owes(now, Left(err, w))
    {
      var found := CheckEnrollment(cfg, ev.keys, w.newKey, w.newZsk, w.keyset);
      if found.None? || zone.id != w.zoneId {
        err := BlockWorkflow(now, w);
        return;
      }
      var ksk, zsk := found.value.0, found.value.1.id;
      if w.reg.jobId > 0 && !w.reg.jobStatus.Succeeded? {
        err := PollJob(now, w, ev, ksk);
        return;
      }
      if ksk.id !in ev.authDs {
        return true;
      }
      var ttl := ev.authDs[ksk.id];
      if w.evidenceAt == UNSET || ttl > w.dsTtl {
        err := RecordDs(now, w, ttl);
        return;
      }
      if !EnrollmentEvidence(ev, ksk.id, zsk, true) || ksk.id !in ev.dsExact || ev.remote.None? {
        return true;
      }
      if !Holds(ev.remote.value, ksk.id) {
        err := BlockWorkflow(now, w);
        return;
      }
      err := CompleteWorkflow(now, w);
    }

    // ---- dispatch -----------------------------------------------------------------------

    /** Runs the handler of a due workflow, and records a retry when it fails. */
    method Advance(now: Time, zone: Zone, w: Workflow, ev: Evidence)
      requires !crashed && Current(w) && Fits(w)
      requires Owes(now, Plans.Advance(cfg, now, zone, w, ev, Memory().armedAt))
      modifies this, store
      ensures goal == old(goal) && Owes(now, Rest)
    {
      if w.nextAt != UNSET && now < w.nextAt {
        return;
      }
      var err := false;
      match w.phase {
        case Prepublish => err := Prepublish(now, w, ev);
        case WaitPublish => err := WaitPublish(now, w, ev);
        case ActivateNew => err := ActivateNew(now, w, ev);
        case WaitNewSignature => err := WaitNewSignature(now, w, ev);
        case DeactivateOld => err := DeactivateOld(now, w, ev);
        case ParentRemove => err := ParentReplace(now, w, ev);
        case WaitParentRemove => err := WaitParentReplace(now, w, ev);
        case WaitRetire => err := WaitRetire(now, w, ev);
        case DeleteOld => err := DeleteOld(now, w, ev);
        case EnrollDiscovered => err := EnrollDiscovered(now, zone, w, ev);
        case EnrollWaitPublish => err := EnrollWaitPublish(now, zone, w, ev);
        case EnrollParentAdd => err := EnrollParentAdd(now, zone, w, ev);
        case EnrollWaitParent => err := EnrollWaitParent(now, zone, w, ev);
        case Blocked => return;
        case Idle => return;
      }
      if err {
        RecordRetry(now, w);
      }
    }

    /** The two registrar phases serve disjoint kinds (see Logs.LoggedSound). */
    predicate Fits(w: Workflow) {
      (w.phase.ParentRemove? ==> !w.kind.Enroll?) && (w.phase.EnrollParentAdd? ==> w.kind.Enroll?)
    }

    /** The active workflows of a zone; the source finds them by looking at every record. */
    method CollectActive(zone: string) returns (active: seq<Kind>)
      ensures active == ActiveKinds(Memory(), zone)
    {
      active := [];
      var s := Memory();
      if Lookup(s, WorkflowId(zone, ZSK)).Active() { active := active + [ZSK]; }
      if Lookup(s, WorkflowId(zone, KSK)).Active() { active := active + [KSK]; }
      if Lookup(s, WorkflowId(zone, Split)).Active() { active := active + [Split]; }
      if Lookup(s, WorkflowId(zone, Enroll)).Active() { active := active + [Enroll]; }
    }

    /** One reconciliation after its bootstrap update ends exactly where the plan says, for
        any script of what its updates and calls meet and any key and DNS evidence. */
    method ReconcileZone(now: Time, zone: Zone, ev: Evidence, pick: nat)
      requires !crashed && store.Valid()
      requires forall kind: Kind :: Lookup(Memory(), WorkflowId(zone.name, kind)).Id() == WorkflowId(zone.name, kind)
                                    && Fits(Lookup(Memory(), WorkflowId(zone.name, kind)))
      modifies this, store
      ensures Here() == Perform(cfg, now, old(Here()), Reconcile(cfg, now, zone, old(Memory()), ev, pick), old(script))
    {
      goal := Perform(cfg, now, Here(), Reconcile(cfg, now, zone, Memory(), ev, pick), script);
      AdvanceOrStart(now, zone, ev, pick);
    }

    /** Advances the one active workflow, or starts the rotation that is due. */
    method AdvanceOrStart(now: Time, zone: Zone, ev: Evidence, pick: nat)
      requires !crashed && Owes(now, Reconcile(cfg, now, zone, Memory(), ev, pick))
      requires forall kind: Kind :: Lookup(Memory(), WorkflowId(zone.name, kind)).Id() == WorkflowId(zone.name, kind)
                                    && Fits(Lookup(Memory(), WorkflowId(zone.name, kind)))
      modifies this, store
      ensures goal == old(goal) && Owes(now, Rest)
    {
      var scheme := CountScheme(ev.keys);
      var active := CollectActive(zone.name);
      if |active| > 1 {
        BlockOnly(now, zone.name, active[pick % |active|]);
        return;
      }
      if |active| == 1 {
        var w := Lookup(Memory(), WorkflowId(zone.name, active[0]));
        if w.kind.Enroll? && w.reg.attemptedAt == UNSET && (!cfg.enrollEnabled || zone.name !in cfg.enrollScope) {
          BlockOnly(now, zone.name, Enroll);
        } else {
          Advance(now, zone, w, ev);
        }
        return;
      }
      if scheme.CskScheme? {
        return;
      }
      if !scheme.SplitScheme? {
        BlockOnly(now, zone.name, ZSK);
        return;
      }
      var zsk := Lookup(Memory(), WorkflowId(zone.name, ZSK));
      var ksk := Lookup(Memory(), WorkflowId(zone.name, KSK));
      if now - zsk.completedAt >= cfg.zskInterval {
        Start(now, zone.name, ZSK);
      } else if now - ksk.completedAt >= cfg.kskInterval {
        Start(now, zone.name, KSK);
      }
    }

    method BlockOnly(now: Time, zone: string, kind: Kind)
      requires !crashed && Owes(now, Plans.BlockOnly(zone, kind))
      modifies this, store
      ensures goal == old(goal) && Owes(now, Rest)
    {
      var c := cfg;
      var id := WorkflowId(zone, kind);
      var err := Save(now, (s: State) => Some(BlockState(c, s, id, now)), zone, Edit.Block(id), Rest, Rest);
    }

    /** Admission is decided inside the update, on the state it changes. */
    method Start(now: Time, zone: string, kind: Kind)
      requires !crashed && Owes(now, Persist(Begin(zone, kind), Rest, Rest))
      modifies this, store
      ensures goal == old(goal) && Owes(now, Rest)
    {
      var err := Save(now, (s: State) => Admit(s, zone, kind, now), zone, Begin(zone, kind), Rest, Rest);
    }

    static function Admit(s: State, zone: string, kind: Kind, now: Time): Option<State> {
      var id := WorkflowId(zone, kind);
      if AnyActive(s, zone) then None
      else Some(s.(workflows := s.workflows[id := Started(Lookup(s, id), now, false, "")]))
    }

    // ---- bootstrap ------------------------------------------------------------------------

    /** The counts over the records already passed by. */
    static ghost predicate Counted(s: State, now: Time, todo: set<WorkflowId>, pending: nat, recent: nat) {
      && todo <= s.workflows.Keys
      && pending == |PendingEnrollments(s) - todo| && recent == |RecentEnrollments(s, now) - todo|
    }

    /** Counts what the circuit breaker looks at, record by record. */
    static method CountEnrollments(s: State, now: Time) returns (pending: nat, recent: nat)
      ensures pending == |PendingEnrollments(s)| && recent == |RecentEnrollments(s, now)|
    {
      var todo := s.workflows.Keys;
      pending, recent := 0, 0;
      CountsAtStart(s, now);
      while todo != {}
        invariant Counted(s, now, todo, pending, recent)
        decreases |todo|
      {
        var id :| id in todo;
        CountsOn(s, now, todo, id, pending, recent);
        todo := todo - {id};
        if id.kind.Enroll? {
          var w := s.workflows[id];
          if w.Active() {
            pending := pending + 1;
          }
          if w.discoveredAt != UNSET && now - w.discoveredAt < DAY {
            recent := recent + 1;
          }
        }
      }
      CountsAtEnd(s, now, pending, recent);
    }

    static lemma CountsAtStart(s: State, now: Time)
      ensures Counted(s, now, s.workflows.Keys, 0, 0)
    {
      assert PendingEnrollments(s) - s.workflows.Keys == {} == RecentEnrollments(s, now) - s.workflows.Keys;
    }

    static lemma CountsOn(s: State, now: Time, todo: set<WorkflowId>, id: WorkflowId, pending: nat, recent: nat)
      requires Counted(s, now, todo, pending, recent) && id in todo
      ensures Counted(s, now, todo - {id}, pending + (if id in PendingEnrollments(s) then 1 else 0),
                      recent + (if id in RecentEnrollments(s, now) then 1 else 0))
    {
      CountedOff(PendingEnrollments(s), todo, id);
      CountedOff(RecentEnrollments(s, now), todo, id);
    }

    static lemma CountsAtEnd(s: State, now: Time, pending: nat, recent: nat)
      requires Counted(s, now, {}, pending, recent)
      ensures pending == |PendingEnrollments(s)| && recent == |RecentEnrollments(s, now)|
    {
      assert PendingEnrollments(s) - {} == PendingEnrollments(s) && RecentEnrollments(s, now) - {} == RecentEnrollments(s, now);
    }

    static lemma CountedOff(all: set<WorkflowId>, todo: set<WorkflowId>, id: WorkflowId)
      requires id in todo
      ensures |all - (todo - {id})| == |all - todo| + (if id in all then 1 else 0)
    {
      assert all - (todo - {id}) == all - todo + (if id in all then {id} else {});
    }

    /** The bootstrap closure, statement by statement. */
    method BootstrapState(s: State, zone: Zone, keys: seq<Key>, now: Time) returns (t: State)
      ensures t == Bootstrap(cfg, s, zone, keys, now)
    {
      t := s;
      var scheme := CountScheme(keys);
      match scheme {
        case SplitScheme =>
          t := AddIdle(t, WorkflowId(zone.name, ZSK), now);
          t := AddIdle(t, WorkflowId(zone.name, KSK), now);
        case CskScheme => t := AddIdle(t, WorkflowId(zone.name, Split), now);
        case UnknownScheme =>
      }
      var id := WorkflowId(zone.name, Enroll);
      if id in t.workflows || t.armedAt == UNSET || !cfg.enrollEnabled || zone.name !in cfg.enrollScope {
        return;
      }
      var record := Fresh(id).(zoneId := zone.id);
      if scheme.CskScheme? {
        t := WithRecord(t, record.(completedAt := now, disposition := Ineligible));
        return;
      }
      var found := CheckEnrollment(cfg, keys, 0, 0, NoFingerprint);
      var pending, recent := CountEnrollments(t, now);
      if pending >= cfg.maxPending || recent >= cfg.maxNewPerDay {
        t := WithRecord(t, record.(phase := Phase.Blocked, discoveredAt := now));
        return;
      }
      record := record.(phase := Phase.EnrollDiscovered, startedAt := now, nextAt := now, discoveredAt := now,
                        parentMode := ParentMode.Initial, disposition := Candidate);
      if found.Some? {
        record := record.(newKey := found.value.0.id, newZsk := found.value.1.id, keyset := found.value.2,
                          nextAt := now + cfg.discoveryGrace);
      }
      t := WithRecord(t, record);
    }
  }
}
