/** Termination: a reconciliation whose handler succeeds ends its workflow or makes it strictly
    smaller, no step of a run makes it larger, so a helpful world drives it to idle. */
module Progress {
  import opened Model
  import opened Inventory
  import opened Edits
  import opened Plans
  import opened World
  import opened Good
  import opened Races
  import opened Legitimacy
  import opened Logs
  import opened Calls

  /** No step forward: only attempts, the next try and attempt markers may differ. */
  predicate Stalled(w: Workflow, x: Workflow) {
    x == w.(attempts := x.attempts, nextAt := x.nextAt, newKeyTriedAt := x.newKeyTriedAt,
            newZskTriedAt := x.newZskTriedAt, reg := w.reg.(attemptedAt := x.reg.attemptedAt))
  }

  predicate Stepped(w: Workflow, x: Workflow) {
    x.phase.Blocked? || !x.Active() || Smaller(x, w) || Stalled(w, x)
  }

  predicate Near(w: Workflow, site: Site) {
    Stepped(w, Lookup(site.mem, w.Id())) && Stepped(w, Lookup(site.disk, w.Id()))
  }

  /** Near, and memory still holds the workflow as active. */
  predicate Going(w: Workflow, site: Site) { Near(w, site) && Lookup(site.mem, w.Id()).Active() }

  // ---- whatever happens ------------------------------------------------------------------

  lemma GoingSettles(cfg: Config, now: Time, w: Workflow, site: Site, script: seq<Beat>)
    requires Going(w, site)
    ensures var s := Settle(cfg, now, site, script).0;
            Going(w, s) && Lookup(s.mem, w.Id()) == Lookup(site.mem, w.Id())
  {
    ActiveThere(site.mem, w.Id());
    SettleLeaves(cfg, now, site, script, w.zone);
    var s := Settle(cfg, now, site, script).0;
    AlikeLookup(site.mem, s.mem, w.Id());
    if s.disk != site.disk {
      AlikeLookup(site.mem, s.disk, w.Id());
    }
  }

  /** An update that leaves the record stepped, however far it gets. */
  lemma NearMet(cfg: Config, now: Time, w: Workflow, site: Site, edit: Edit, ok: Todo, fail: Todo, o: Outcome)
    requires Near(w, site)
    requires Apply(cfg, now, edit, site.mem).Some? ==> Stepped(w, Lookup(Apply(cfg, now, edit, site.mem).value, w.Id()))
    ensures Near(w, Meet(cfg, now, site, Persist(edit, ok, fail), o).0)
  {}

  lemma NearFail(cfg: Config, now: Time, w: Workflow, site: Site, v: Workflow, script: seq<Beat>)
    requires Going(w, site) && v.Id() == w.Id()
    ensures Near(w, Perform(cfg, now, site, Fail(v), script))
  {
    Settled(cfg, now, site, Fail(v), script);
    GoingSettles(cfg, now, w, site, script);
    var (s, rest) := Settle(cfg, now, site, script);
    if rest != [] {
      WritesOne(cfg, now, Retry(v.Id()), s.mem, Apply(cfg, now, Retry(v.Id()), s.mem).value);
      NearMet(cfg, now, w, s, Retry(v.Id()), Rest, Rest, rest[0].outcome);
    }
  }

  /** A saved update is the last thing that happens; an unsaved one is followed by a retry. */
  lemma NearEnd(cfg: Config, now: Time, w: Workflow, site: Site, v: Workflow, edit: Edit, script: seq<Beat>)
    requires Going(w, site) && v.Id() == w.Id()
    requires forall s | Lookup(s, w.Id()) == Lookup(site.mem, w.Id()) && Apply(cfg, now, edit, s).Some? ::
               Stepped(w, Lookup(Apply(cfg, now, edit, s).value, w.Id()))
    ensures Near(w, Perform(cfg, now, site, Persist(edit, Rest, Fail(v)), script))
  {
    Settled(cfg, now, site, Persist(edit, Rest, Fail(v)), script);
    GoingSettles(cfg, now, w, site, script);
    var (s, rest) := Settle(cfg, now, site, script);
    if rest != [] {
      var step := Meet(cfg, now, s, Persist(edit, Rest, Fail(v)), rest[0].outcome);
      NearMet(cfg, now, w, s, edit, Rest, Fail(v), rest[0].outcome);
      if step.1 != Rest {
        NearFail(cfg, now, w, step.0, v, rest[1..]);
      }
    }
  }

  lemma NearStop(cfg: Config, now: Time, w: Workflow, site: Site, v: Workflow, script: seq<Beat>)
    requires Going(w, site) && v.Id() == w.Id()
    ensures Near(w, Perform(cfg, now, site, Stop(v), script))
  {
    Settled(cfg, now, site, Stop(v), script);
    GoingSettles(cfg, now, w, site, script);
    var (s, rest) := Settle(cfg, now, site, script);
    if rest != [] {
      var t := BlockState(cfg, s.mem, v.Id(), now);
      WritesOne(cfg, now, Block(v.Id()), s.mem, t);
      assert Lookup(t, w.Id()).phase.Blocked?;
      NearMet(cfg, now, w, s, Block(v.Id()), Fail(v), Fail(v), rest[0].outcome);
      NearFail(cfg, now, w, Meet(cfg, now, s, Stop(v), rest[0].outcome).0, v, rest[1..]);
    }
  }

  predicate SameSize(v: Workflow, w: Workflow) {
    v.Id() == w.Id() && v.zoneTtl == w.zoneTtl && v.dsTtl == w.dsTtl && Rank(v.phase) == Rank(w.phase) && Slots(v) == Slots(w)
  }

  lemma NearMove(cfg: Config, now: Time, w: Workflow, site: Site, v: Workflow, todo: Todo, script: seq<Beat>)
    requires Going(w, site) && SameSize(v, w) && (Moves(cfg, now, v, todo) || todo == Finish(v))
    ensures Near(w, Perform(cfg, now, site, todo, script))
  {
    forall s | Apply(cfg, now, todo.edit, s).Some?
      ensures Stepped(w, Lookup(Apply(cfg, now, todo.edit, s).value, w.Id()))
    {
      if todo == Finish(v) {
        CompletedLookup(cfg, now, v, s, v.Id());
      }
    }
    NearEnd(cfg, now, w, site, v, todo.edit, script);
  }

  lemma NearSet(cfg: Config, now: Time, w: Workflow, site: Site, todo: Todo, script: seq<Beat>)
    requires Going(w, site)
    requires || (todo.Set? && todo.w == w && Moves(cfg, now, w, todo.ok))
             || (todo == Delete(w, w.oldKey, Finish(w)))
    ensures Near(w, Perform(cfg, now, site, todo, script))
  {
    Settled(cfg, now, site, todo, script);
    GoingSettles(cfg, now, w, site, script);
    var (s, rest) := Settle(cfg, now, site, script);
    if rest != [] {
      var step := Meet(cfg, now, s, todo, rest[0].outcome);
      NearMove(cfg, now, w, step.0, w, todo.ok, rest[1..]);
      NearFail(cfg, now, w, step.0, w, rest[1..]);
    }
  }

  /** What is left to do after a counted call is a move, a block or a failure. */
  lemma NearAnswer(cfg: Config, now: Time, w: Workflow, site: Site, v: Workflow, todo: Todo, script: seq<Beat>)
    requires Going(w, site) && SameSize(v, w) && (todo == Fail(v) || todo == Stop(v) || Moves(cfg, now, v, todo))
    ensures Near(w, Perform(cfg, now, site, todo, script))
  {
    if todo == Fail(v) {
      NearFail(cfg, now, w, site, v, script);
    } else if todo == Stop(v) {
      NearStop(cfg, now, w, site, v, script);
    } else {
      NearMove(cfg, now, w, site, v, todo, script);
    }
  }

  /** The plans that may follow a marker. */
  predicate Calling(v: Workflow, todo: Todo) {
    || (todo.Create? && todo.w == v && OpenSlot(v, todo.zskSlot))
    || (todo == Update(v, v.newKey) && (v.phase.ParentRemove? || v.phase.EnrollParentAdd?) && !v.reg.ctid.NoCtid?)
  }

  lemma AnswerIs(cfg: Config, now: Time, site: Site, v: Workflow, todo: Todo, o: Outcome)
    requires Ready(cfg, now, v) && Calling(v, todo)
    ensures var next := Meet(cfg, now, site, todo, o).1;
            next == Fail(v) || next == Stop(v) || Moves(cfg, now, v, next)
  {
    if todo.Create? {
      if o.key.id > 0 {
        FilledLegit(cfg, now, v, todo.zskSlot, o.key.id);
      }
    } else {
      var reply := if o.seen && UpdateCall(site.env, v.newKey, o).Some? then Some(o.job) else None;
      AfterUpdateLegit(cfg, now, v, reply);
    }
  }

  lemma NearCalled(cfg: Config, now: Time, w: Workflow, site: Site, v: Workflow, todo: Todo, script: seq<Beat>)
    requires Going(w, site) && SameSize(v, w) && Ready(cfg, now, v) && Calling(v, todo)
    ensures Near(w, Perform(cfg, now, site, todo, script))
  {
    Settled(cfg, now, site, todo, script);
    GoingSettles(cfg, now, w, site, script);
    var (s, rest) := Settle(cfg, now, site, script);
    if rest != [] {
      var step := Meet(cfg, now, s, todo, rest[0].outcome);
      AnswerIs(cfg, now, s, v, todo, rest[0].outcome);
      NearAnswer(cfg, now, w, step.0, v, step.1, rest[1..]);
    }
  }

  lemma MarkedRecord(cfg: Config, now: Time, w: Workflow, s: State, todo: Todo)
    requires Lookup(s, w.Id()) == w && MarksFirst(w, now, todo)
    ensures Apply(cfg, now, todo.edit, s) == Some(WithRecord(s, WithMark(w, now, todo)))
    ensures Lookup(WithRecord(s, WithMark(w, now, todo)), w.Id()) == WithMark(w, now, todo)
    ensures Stalled(w, WithMark(w, now, todo)) && SameSize(WithMark(w, now, todo), w)
  {}

  lemma MarkedReady(cfg: Config, now: Time, w: Workflow, todo: Todo)
    requires Ready(cfg, now, w) && MarksFirst(w, now, todo)
    ensures Ready(cfg, now, WithMark(w, now, todo)) && Calling(WithMark(w, now, todo), todo.ok)
  {
    MarkSound(cfg, w, now);
  }

  /** The marked record is as large as the unmarked one. */
  lemma NearMarked(cfg: Config, now: Time, w: Workflow, site: Site, todo: Todo, script: seq<Beat>)
    requires Going(w, site) && Ready(cfg, now, w) && Lookup(site.mem, w.Id()) == w && MarksFirst(w, now, todo)
    ensures Near(w, Perform(cfg, now, site, todo, script))
  {
    Settled(cfg, now, site, todo, script);
    GoingSettles(cfg, now, w, site, script);
    var (s, rest) := Settle(cfg, now, site, script);
    if rest != [] {
      var step := Meet(cfg, now, s, todo, rest[0].outcome);
      MarkedRecord(cfg, now, w, s.mem, todo);
      NearMet(cfg, now, w, s, todo.edit, todo.ok, todo.fail, rest[0].outcome);
      if rest[0].outcome.io.Saved? {
        MarkedReady(cfg, now, w, todo);
        NearCalled(cfg, now, w, step.0, WithMark(w, now, todo), todo.ok, rest[1..]);
      } else {
        NearFail(cfg, now, w, step.0, w, rest[1..]);
      }
    }
  }

  /** Whatever a reconciliation meets and wherever it stops, it never makes its workflow
      larger: it blocks or ends it, shrinks it, or leaves its size alone. */
  lemma NeverLarger(cfg: Config, now: Time, zone: Zone, site: Site, w: Workflow, ev: Evidence, armedAt: Time,
                    script: seq<Beat>)
    requires ValidConfig(cfg) && now > 0 && Sound(cfg, w) && PositiveIds(ev.keys) && w.Active()
    requires Lookup(site.mem, w.Id()) == w && Lookup(site.disk, w.Id()) == w
    ensures Near(w, Perform(cfg, now, site, Advance(cfg, now, zone, w, ev, armedAt), script))
  {
    var todo := Advance(cfg, now, zone, w, ev, armedAt);
    AdvanceLegit(cfg, now, zone, w, ev, armedAt);
    assert Stalled(w, w);
    if todo == Rest {
    } else if todo == Fail(w) {
      NearFail(cfg, now, w, site, w, script);
    } else if todo == Stop(w) {
      NearStop(cfg, now, w, site, w, script);
    } else if Moves(cfg, now, w, todo) || todo == Finish(w) {
      NearMove(cfg, now, w, site, w, todo, script);
    } else if todo.Set? || todo.Delete? {
      NearSet(cfg, now, w, site, todo, script);
    } else {
      NearMarked(cfg, now, w, site, todo, script);
    }
  }

  // ---- when the handler succeeds --------------------------------------------------------------

  /** The handler returns no error: no update fails, every call is carried out and answered
      acceptably, and it neither blocks nor asks for a retry. */
  ghost predicate Succeeds(cfg: Config, now: Time, site: Site, todo: Todo, script: seq<Beat>)
    decreases |script|
  {
    if todo.Rest? then true
    else if script == [] then false
    else match script[0]
      case Slips(req) => Succeeds(cfg, now, Slipped(cfg, now, site, req), todo, script[1..])
      case Meets(o) =>
        var step := Meet(cfg, now, site, todo, o);
        !(todo.Persist? && (todo.edit.Retry? || todo.edit.Block?)) && Succeeds(cfg, now, step.0, step.1, script[1..])
  }

  lemma {:induction false} SuccessSettled(cfg: Config, now: Time, site: Site, todo: Todo, script: seq<Beat>)
    requires !todo.Rest?
    ensures var (s, rest) := Settle(cfg, now, site, script);
            Succeeds(cfg, now, site, todo, script)
            <==> rest != [] && !(todo.Persist? && (todo.edit.Retry? || todo.edit.Block?))
                 && var step := Meet(cfg, now, s, todo, rest[0].outcome); Succeeds(cfg, now, step.0, step.1, rest[1..])
    decreases |script|
  {
    if script != [] && script[0].Slips? {
      SuccessSettled(cfg, now, Slipped(cfg, now, site, script[0].req), todo, script[1..]);
    }
  }

  /** Failing and blocking are no success. */
  lemma NoSuccess(cfg: Config, now: Time, site: Site, v: Workflow, script: seq<Beat>)
    ensures !Succeeds(cfg, now, site, Fail(v), script) && !Succeeds(cfg, now, site, Stop(v), script)
  {
    SuccessSettled(cfg, now, site, Fail(v), script);
    SuccessSettled(cfg, now, site, Stop(v), script);
  }

  /** Ended, or strictly smaller and not blocked. */
  predicate Shrunk(w: Workflow, x: Workflow) { !x.Active() || (!x.phase.Blocked? && 0 <= Measure(x) < Measure(w)) }

  ghost predicate Shrinks(cfg: Config, now: Time, w: Workflow, site: Site, todo: Todo, script: seq<Beat>) {
    Succeeds(cfg, now, site, todo, script) ==> Shrunk(w, Lookup(Perform(cfg, now, site, todo, script).mem, w.Id()))
  }

  lemma ShrinksMove(cfg: Config, now: Time, w: Workflow, site: Site, v: Workflow, todo: Todo, script: seq<Beat>)
    requires Sound(cfg, w) && Sound(cfg, v) && SameSize(v, w) && (Moves(cfg, now, v, todo) || todo == Finish(v))
    ensures Shrinks(cfg, now, w, site, todo, script)
  {
    Settled(cfg, now, site, todo, script);
    SuccessSettled(cfg, now, site, todo, script);
    var (s, rest) := Settle(cfg, now, site, script);
    if rest != [] {
      var step := Meet(cfg, now, s, todo, rest[0].outcome);
      NoSuccess(cfg, now, step.0, v, rest[1..]);
      if todo == Finish(v) {
        CompletedLookup(cfg, now, v, s.mem, v.Id());
      } else {
        MeasureShrinks(cfg, todo.edit.x, v);
        assert Lookup(WithRecord(s.mem, todo.edit.x), w.Id()) == todo.edit.x;
      }
    }
  }

  lemma ShrinksSet(cfg: Config, now: Time, w: Workflow, site: Site, todo: Todo, script: seq<Beat>)
    requires Sound(cfg, w)
    requires || (todo.Set? && todo.w == w && Moves(cfg, now, w, todo.ok))
             || (todo == Delete(w, w.oldKey, Finish(w)))
    ensures Shrinks(cfg, now, w, site, todo, script)
  {
    Settled(cfg, now, site, todo, script);
    SuccessSettled(cfg, now, site, todo, script);
    var (s, rest) := Settle(cfg, now, site, script);
    if rest != [] {
      var step := Meet(cfg, now, s, todo, rest[0].outcome);
      NoSuccess(cfg, now, step.0, w, rest[1..]);
      ShrinksMove(cfg, now, w, step.0, w, todo.ok, rest[1..]);
    }
  }

  lemma ShrinksCalled(cfg: Config, now: Time, w: Workflow, site: Site, v: Workflow, todo: Todo, script: seq<Beat>)
    requires Sound(cfg, w) && SameSize(v, w) && Ready(cfg, now, v) && Calling(v, todo)
    ensures Shrinks(cfg, now, w, site, todo, script)
  {
    Settled(cfg, now, site, todo, script);
    SuccessSettled(cfg, now, site, todo, script);
    var (s, rest) := Settle(cfg, now, site, script);
    if rest != [] {
      var step := Meet(cfg, now, s, todo, rest[0].outcome);
      AnswerIs(cfg, now, s, v, todo, rest[0].outcome);
      NoSuccess(cfg, now, step.0, v, rest[1..]);
      if Moves(cfg, now, v, step.1) {
        ShrinksMove(cfg, now, w, step.0, v, step.1, rest[1..]);
      }
    }
  }

  lemma ShrinksMarked(cfg: Config, now: Time, w: Workflow, site: Site, todo: Todo, script: seq<Beat>)
    requires Ready(cfg, now, w) && w.Active() && Lookup(site.mem, w.Id()) == w && MarksFirst(w, now, todo)
    ensures Shrinks(cfg, now, w, site, todo, script)
  {
    Settled(cfg, now, site, todo, script);
    SuccessSettled(cfg, now, site, todo, script);
    SettlesOn(cfg, now, site, w, script);
    var (s, rest) := Settle(cfg, now, site, script);
    if rest != [] {
      var step := Meet(cfg, now, s, todo, rest[0].outcome);
      NoSuccess(cfg, now, step.0, w, rest[1..]);
      MarkedRecord(cfg, now, w, s.mem, todo);
      MarkedReady(cfg, now, w, todo);
      ShrinksCalled(cfg, now, w, step.0, WithMark(w, now, todo), todo.ok, rest[1..]);
    }
  }

  lemma SettlesOn(cfg: Config, now: Time, site: Site, w: Workflow, script: seq<Beat>)
    requires Lookup(site.mem, w.Id()) == w && w.Active()
    ensures Lookup(Settle(cfg, now, site, script).0.mem, w.Id()) == w
  {
    ActiveThere(site.mem, w.Id());
    SettleLeaves(cfg, now, site, script, w.zone);
    AlikeLookup(site.mem, Settle(cfg, now, site, script).0.mem, w.Id());
  }

  /** Every handler call that does something and returns no error ends its workflow or makes it
      strictly smaller, whatever it wrote to PowerDNS and the registrar on the way. */
  lemma SuccessShrinks(cfg: Config, now: Time, zone: Zone, site: Site, w: Workflow, ev: Evidence, armedAt: Time,
                       script: seq<Beat>)
    requires ValidConfig(cfg) && now > 0 && Sound(cfg, w) && PositiveIds(ev.keys) && w.Active()
    requires Lookup(site.mem, w.Id()) == w
    requires Advance(cfg, now, zone, w, ev, armedAt) != Rest
    requires Succeeds(cfg, now, site, Advance(cfg, now, zone, w, ev, armedAt), script)
    ensures Shrunk(w, Lookup(Perform(cfg, now, site, Advance(cfg, now, zone, w, ev, armedAt), script).mem, w.Id()))
  {
    var todo := Advance(cfg, now, zone, w, ev, armedAt);
    AdvanceLegit(cfg, now, zone, w, ev, armedAt);
    NoSuccess(cfg, now, site, w, script);
    if Moves(cfg, now, w, todo) || todo == Finish(w) {
      ShrinksMove(cfg, now, w, site, w, todo, script);
    } else if todo.Set? || todo.Delete? {
      ShrinksSet(cfg, now, w, site, todo, script);
    } else {
      ShrinksMarked(cfg, now, w, site, todo, script);
    }
  }
}
