/** The notification outbox: an event committed with the end of its workflow is kept until it
    has been delivered, and not sent again once its delivery is recorded. */
module Outbox {
  import opened Model
  import opened Inventory
  import opened Edits
  import opened World
  import opened Good
  import opened Legitimacy
  import opened Races
  import opened Logs
  import opened Stores
  import opened Calls

  // ---- over every log of updates -----------------------------------------------------------

  /** How one update may treat an event that is in the outbox: not at all, record one
      attempt, drop it long after delivery, or replace it when the same workflow completes at
      the very same instant. */
  predicate Treated(cfg: Config, now: Time, e: Edit, s: State, t: State, id: EventId)
    requires id in s.notifications
  {
    var x := s.notifications[id];
    if id !in t.notifications then e.Expire? && id in e.ids && Expired(cfg, x, now)
    else
      var y := t.notifications[id];
      || y == x
      || (e.Deliver? && e.event == id && x.deliveredAt == UNSET && y == AfterSend(x, e.sent, now))
      || (e.Complete? && y == CompletionEvent(e.w, now) && y.id == id && y.deliveredAt == UNSET)
  }

  lemma EditOutbox(cfg: Config, now: Time, e: Edit, s: State, t: State, id: EventId)
    requires Legal(cfg, now, e, s) && Apply(cfg, now, e, s) == Some(t) && id in s.notifications
    ensures Treated(cfg, now, e, s, t, id)
  {
    match e
    case Boot(zone, keys) => BootRecords(cfg, s, zone, keys, now, WorkflowId(zone.name, ZSK));
    case TriggerAll(kind, zones, idem, _) => StartedEvents(s, kind, zones, idem, now);
    case ResumeAll(items, _, _) => ResumedEvents(s, items, now);
    case Arm(listing, _) => BaselinedEach(s, listing, now, WorkflowId("", ZSK));
    case _ =>
  }

  lemma {:induction false} StartedEvents(s: State, kind: Kind, zones: seq<string>, idem: string, now: Time)
    ensures StartAll(s, kind, zones, idem, now).notifications == s.notifications
  {
    if zones != [] {
      StartedEvents(s, kind, zones[..|zones| - 1], idem, now);
    }
  }

  lemma {:induction false} ResumedEvents(s: State, items: seq<Workflow>, now: Time)
    ensures ResumeEach(s, items, now).notifications == s.notifications
  {
    if items != [] {
      ResumedEvents(s, items[..|items| - 1], now);
    }
  }

  /** Whatever follows in the log: an event that is gone at the end had been delivered, and
      its retention had passed, when it was dropped. */
  lemma {:induction false} DroppedAfterDelivery(cfg: Config, log: seq<Entry>, n: nat, now: Time, id: EventId)
    returns (k: nat)
    requires LegalLog(cfg, log, now) && n < |log|
    requires id in Result(cfg, log[..n]).notifications && id !in Result(cfg, log).notifications
    ensures n <= k < |log| && log[k].edit.Expire?
    ensures id in Result(cfg, log[..k]).notifications && Expired(cfg, Result(cfg, log[..k]).notifications[id], log[k].now)
  {
    var shorter, last := log[..|log| - 1], log[|log| - 1];
    assert shorter[..n] == log[..n];
    assert n == |shorter| ==> log[..n] == shorter;
    if id in Result(cfg, shorter).notifications {
      var after := Apply(cfg, last.now, last.edit, Result(cfg, shorter));
      if after.Some? {
        EditOutbox(cfg, last.now, last.edit, Result(cfg, shorter), after.value, id);
      }
      k := |log| - 1;
    } else {
      k := DroppedAfterDelivery(cfg, shorter, n, last.now, id);
      assert shorter[..k] == log[..k];
    }
  }

  /** The log does not complete the same workflow again at the instant the event names. */
  predicate NotRepeated(log: seq<Entry>, n: nat, id: EventId) {
    forall k | n <= k < |log| :: log[k].edit.Complete? ==> CompletionEvent(log[k].edit.w, log[k].now).id != id
  }

  /** A recorded delivery is never taken back. */
  lemma {:induction false} DeliveryStays(cfg: Config, log: seq<Entry>, n: nat, now: Time, id: EventId)
    requires LegalLog(cfg, log, now) && n <= |log| && NotRepeated(log, n, id)
    requires id in Result(cfg, log[..n]).notifications && Result(cfg, log[..n]).notifications[id].deliveredAt != UNSET
    requires id in Result(cfg, log).notifications
    requires forall k | n <= k < |log| :: id in Result(cfg, log[..k]).notifications
    ensures Result(cfg, log).notifications[id] == Result(cfg, log[..n]).notifications[id]
  {
    if n == |log| {
      assert log[..n] == log;
    } else {
      var shorter, last := log[..|log| - 1], log[|log| - 1];
      assert shorter[..n] == log[..n] && log[..|log| - 1] == shorter;
      forall k | n <= k < |shorter|
        ensures id in Result(cfg, shorter[..k]).notifications
      {
        assert shorter[..k] == log[..k];
      }
      assert id in Result(cfg, log[..|log| - 1]).notifications;
      DeliveryStays(cfg, shorter, n, last.now, id);
      var after := Apply(cfg, last.now, last.edit, Result(cfg, shorter));
      if after.Some? {
        EditOutbox(cfg, last.now, last.edit, Result(cfg, shorter), after.value, id);
        assert last.edit.Complete? ==> CompletionEvent(log[|log| - 1].edit.w, log[|log| - 1].now).id != id;
      }
    }
  }

  /** One update ends the workflow and files its event, due at once. */
  lemma CompletionFilesEvent(cfg: Config, now: Time, s: State, w: Workflow)
    ensures var t := CompleteState(cfg, s, w, now);
            && !Lookup(t, w.Id()).Active()
            && (cfg.notify ==> CompletedEvent(w.zone, w.kind, now) in t.notifications
                               && DueEvent(t.notifications[CompletedEvent(w.zone, w.kind, now)], now))
  {}

  /** A failed attempt is repeated after 2 to 256 minutes; a successful one never. */
  lemma AttemptSpacing(n: Notification, now: Time)
    requires n.deliveredAt == UNSET && now > 0
    ensures var m := AfterSend(n, false, now); m.deliveredAt == UNSET && now + 2 * 60 <= m.nextAttemptAt <= now + 256 * 60
    ensures forall later :: !DueEvent(AfterSend(n, true, now), later)
    ensures forall later | now <= later < now + 120 :: !DueEvent(AfterSend(n, false, now), later)
  {
    BackoffBounds(n.attempts + 1);
  }

  // ---- one delivery round ---------------------------------------------------------------------

  method CollectExpired(cfg: Config, s: State, now: Time) returns (ids: set<EventId>)
    ensures ids == set id <- s.notifications | Expired(cfg, s.notifications[id], now)
  {
    ids := {};
    var todo := s.notifications.Keys;
    while todo != {}
      invariant todo <= s.notifications.Keys
      invariant ids == set id <- s.notifications | id !in todo && Expired(cfg, s.notifications[id], now)
      decreases |todo|
    {
      var id :| id in todo;
      todo := todo - {id};
      if Expired(cfg, s.notifications[id], now) {
        ids := ids + {id};
      }
    }
  }

  /** The due events, each once; their order is the order of their hashed ids. */
  method CollectDue(s: State, now: Time) returns (ids: seq<EventId>)
    ensures forall id :: id in ids <==> id in s.notifications && DueEvent(s.notifications[id], now)
    ensures forall i, j | 0 <= i < j < |ids| :: ids[i] != ids[j]
  {
    ids := [];
    var todo := s.notifications.Keys;
    while todo != {}
      invariant todo <= s.notifications.Keys
      invariant forall id :: id in ids <==> id in s.notifications && id !in todo && DueEvent(s.notifications[id], now)
      invariant forall i, j | 0 <= i < j < |ids| :: ids[i] != ids[j]
      decreases |todo|
    {
      var id :| id in todo;
      todo := todo - {id};
      if DueEvent(s.notifications[id], now) {
        ids := ids + [id];
      }
    }
  }

  method Record(cfg: Config, store: Store, now: Time, edit: Edit, io: Io) returns (ok: bool)
    requires store.Valid()
    modifies store
    ensures store.Valid()
    ensures var s := old(store.data.Value());
            && ok == (Apply(cfg, now, edit, s).Some? && io.Saved?)
            && Some(store.data.Value()) == (if ok then Apply(cfg, now, edit, s) else Some(s))
  {
    ok := store.Update((s: State) => Apply(cfg, now, edit, s), io);
  }

  function ExpiredIds(cfg: Config, s: State, now: Time): set<EventId> {
    set id <- s.notifications | Expired(cfg, s.notifications[id], now)
  }

  /** The outbox once the long delivered events are dropped. */
  function Swept(cfg: Config, s: State, now: Time): State {
    s.(notifications := s.notifications - ExpiredIds(cfg, s, now))
  }

  /** The outcome of the i-th event sent is recorded if its update was saved; otherwise memory
      still holds the event as due. */
  predicate Noted(base: State, after: State, sent: seq<EventId>, i: nat, accepts: EventId -> bool, ios: nat -> Io, now: Time)
    requires i < |sent|
  {
    var id := sent[i];
    && id in base.notifications && id in after.notifications
    && after.notifications[id] == (if ios(i + 1).Saved? then AfterSend(base.notifications[id], accepts(id), now)
                                   else base.notifications[id])
  }

  /** Apart from the events of `sent` nothing differs. */
  predicate OnlySent(base: State, after: State, sent: seq<EventId>) {
    && after == base.(notifications := after.notifications) && after.notifications.Keys == base.notifications.Keys
    && forall id <- base.notifications | id !in sent :: after.notifications[id] == base.notifications[id]
  }

  lemma DeliveredOne(cfg: Config, now: Time, base: State, s: State, ids: seq<EventId>, i: nat, accepts: EventId -> bool,
                     ios: nat -> Io)
    requires i < |ids| && forall j, k | 0 <= j < k < |ids| :: ids[j] != ids[k]
    requires forall id <- ids :: id in base.notifications && DueEvent(base.notifications[id], now)
    requires OnlySent(base, s, ids[..i]) && forall j: nat | j < i :: Noted(base, s, ids, j, accepts, ios, now)
    ensures var t := Apply(cfg, now, Deliver(ids[i], accepts(ids[i])), s);
            && t.Some?
            && var after := if ios(i + 1).Saved? then t.value else s;
            && OnlySent(base, after, ids[..i + 1])
            && forall j: nat | j < i + 1 :: Noted(base, after, ids, j, accepts, ios, now)
  {
    assert ids[i] !in ids[..i];
    assert ids[..i + 1] == ids[..i] + [ids[i]];
    assert s.notifications[ids[i]] == base.notifications[ids[i]];
    var t := Apply(cfg, now, Deliver(ids[i], accepts(ids[i])), s).value;
    var after := if ios(i + 1).Saved? then t else s;
    assert t == s.(notifications := s.notifications[ids[i] := AfterSend(base.notifications[ids[i]], accepts(ids[i]), now)]);
    assert t.notifications.Keys == base.notifications.Keys;
    forall j: nat | j < i
      ensures Noted(base, after, ids, j, accepts, ios, now)
    {
      assert Noted(base, s, ids, j, accepts, ios, now);
      assert ids[j] != ids[i];
    }
    assert Noted(base, after, ids, i, accepts, ios, now);
  }

  /** One round: drop what was delivered long ago, then send what is due and record each result.
      `accepts` is the mail server, `ios` what the updates meet. Returns the events sent; a
      failed drop ends the round. */
  method DeliverNotifications(cfg: Config, store: Store, now: Time, accepts: EventId -> bool, ios: nat -> Io)
    returns (sent: seq<EventId>)
    requires store.Valid()
    modifies store
    ensures store.Valid()
    ensures var before, after := old(store.data.Value()), store.data.Value();
            var base := Swept(cfg, before, now);
            if ExpiredIds(cfg, before, now) != {} && !ios(0).Saved? then sent == [] && after == before
            else if !cfg.notify then sent == [] && after == base
            else
              && (forall id :: id in sent <==> id in base.notifications && DueEvent(base.notifications[id], now))
              && (forall i, j | 0 <= i < j < |sent| :: sent[i] != sent[j])
              && OnlySent(base, after, sent)
              && (forall i: nat | i < |sent| :: Noted(base, after, sent, i, accepts, ios, now))
  {
    sent := [];
    ghost var before := store.data.Value();
    ghost var base := Swept(cfg, before, now);
    var snapshot := store.Snapshot();
    var expired := CollectExpired(cfg, snapshot.Value(), now);
    if expired != {} {
      var ok := Record(cfg, store, now, Expire(expired), ios(0));
      if !ok {
        return;
      }
      snapshot := store.Snapshot();
    }
    assert expired == {} ==> base == before;
    assert store.data.Value() == base == snapshot.Value();
    if !cfg.notify {
      return;
    }
    sent := CollectDue(snapshot.Value(), now);
    SendAll(cfg, store, now, sent, accepts, ios);
  }

  /** Sends the events of `ids` and records each result. */
  method SendAll(cfg: Config, store: Store, now: Time, ids: seq<EventId>, accepts: EventId -> bool, ios: nat -> Io)
    requires store.Valid() && forall i, j | 0 <= i < j < |ids| :: ids[i] != ids[j]
    requires forall id <- ids :: id in store.data.Value().notifications && DueEvent(store.data.Value().notifications[id], now)
    modifies store
    ensures store.Valid() && OnlySent(old(store.data.Value()), store.data.Value(), ids)
    ensures forall i: nat | i < |ids| :: Noted(old(store.data.Value()), store.data.Value(), ids, i, accepts, ios, now)
  {
    ghost var base := store.data.Value();
    for i := 0 to |ids|
      invariant store.Valid()
      invariant OnlySent(base, store.data.Value(), ids[..i])
      invariant forall j: nat | j < i :: Noted(base, store.data.Value(), ids, j, accepts, ios, now)
      modifies store
    {
      var id := ids[i];
      var result := accepts(id);
      DeliveredOne(cfg, now, base, store.data.Value(), ids, i, accepts, ios);
      var ok := Record(cfg, store, now, Deliver(id, result), ios(i + 1));
    }
    assert ids[..|ids|] == ids;
  }

  /** What the round means: nothing undelivered is lost, a recorded delivery is final, and a
      recorded failure is tried again after 2 to 256 minutes. */
  lemma RoundKeepsEvents(cfg: Config, now: Time, before: State, after: State, sent: seq<EventId>, accepts: EventId -> bool,
                         ios: nat -> Io, id: EventId)
    requires now > 0 && id in before.notifications && OnlySent(Swept(cfg, before, now), after, sent)
    requires forall i: nat | i < |sent| :: Noted(Swept(cfg, before, now), after, sent, i, accepts, ios, now)
    requires forall x :: x in sent <==> x in Swept(cfg, before, now).notifications && DueEvent(Swept(cfg, before, now).notifications[x], now)
    ensures before.notifications[id].deliveredAt == UNSET ==> id in after.notifications
    ensures before.notifications[id].deliveredAt != UNSET && id in after.notifications ==>
              after.notifications[id] == before.notifications[id]
    ensures forall i: nat | i < |sent| && sent[i] == id && ios(i + 1).Saved? ::
              if accepts(id) then after.notifications[id].deliveredAt == now
              else now + 2 * 60 <= after.notifications[id].nextAttemptAt <= now + 256 * 60
  {
    forall i: nat | i < |sent| && sent[i] == id && ios(i + 1).Saved?
      ensures if accepts(id) then after.notifications[id].deliveredAt == now
              else now + 2 * 60 <= after.notifications[id].nextAttemptAt <= now + 256 * 60
    {
      assert Noted(Swept(cfg, before, now), after, sent, i, accepts, ios, now);
      BackoffBounds(before.notifications[id].attempts + 1);
    }
  }
}
