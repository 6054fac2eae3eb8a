/** The locked state store: copy on write, persisted before it is published. The file is one
    value; writing it may fail before the rename, or after it. */
module Stores {
  import opened Model
  import opened World

  /** The mutable in-memory state; `State` is its value. */
  class Records {
    var armedAt: Time
    var workflows: map<WorkflowId, Workflow>
    var idempotency: map<string, string>
    var notifications: map<EventId, Notification>

    constructor (s: State)
      ensures Value() == s
    {
      armedAt := s.armedAt;
      workflows := s.workflows;
      idempotency := s.idempotency;
      notifications := s.notifications;
    }

    function Value(): State
      reads this
    {
      State(armedAt, workflows, idempotency, notifications)
    }
  }

  /** Copies a map entry by entry. */
  method CopyMap<K(==), V(==)>(m: map<K, V>) returns (out: map<K, V>)
    ensures out == m
  {
    out := map[];
    var todo := m.Keys;
    while todo != {}
      invariant todo <= m.Keys && out.Keys == m.Keys - todo
      invariant forall k <- out :: out[k] == m[k]
      decreases |todo|
    {
      var k :| k in todo;
      out := out[k := m[k]];
      todo := todo - {k};
    }
  }

  method Clone(r: Records) returns (out: Records)
    ensures fresh(out) && out.Value() == r.Value()
  {
    var workflows := CopyMap(r.workflows);
    var idempotency := CopyMap(r.idempotency);
    var notifications := CopyMap(r.notifications);
    out := new Records(State(r.armedAt, workflows, idempotency, notifications));
  }

  /** The updates after which the file may be ahead of memory. */
  type Closure = State -> Option<State>

  class Store {
    var data: Records
    var disk: State
    ghost var last: Closure

    /** The file holds what memory holds, or exactly the last update on top of it. */
    ghost predicate Valid()
      reads this, data
    {
      disk == data.Value() || last(data.Value()) == Some(disk)
    }

    /** A restart loads the file. */
    constructor (file: State)
      ensures Valid() && fresh(data) && data.Value() == file && disk == file
    {
      data := new Records(file);
      disk := file;
      last := s => None;
    }

    /** The process stops and starts again. */
    method Reload()
      modifies this
      ensures Valid() && fresh(data) && data.Value() == disk && disk == old(disk)
    {
      data := new Records(disk);
    }

    /** An isolated copy: changing it never changes the store. */
    method Snapshot() returns (out: Records)
      ensures fresh(out) && out.Value() == data.Value()
    {
      out := Clone(data);
    }

    /** The file after a write that got as far as `io`; an error may still follow the rename. */
    method WriteAtomic(s: State, io: Io) returns (ok: bool)
      modifies this`disk
      ensures ok == io.Saved?
      ensures disk == if io.NotSaved? then old(disk) else s
    {
      if io.NotSaved? {
        return false;
      }
      disk := s;
      return io.Saved?;
    }

    method Update(fn: Closure, io: Io) returns (ok: bool)
      requires Valid()
      modifies this
      ensures Valid()
      ensures ok <==> fn(old(data.Value())).Some? && io.Saved?
      ensures ok ==> Some(data.Value()) == fn(old(data.Value())) && disk == data.Value() && fresh(data)
      ensures !ok ==> data == old(data) && data.Value() == old(data.Value())
      ensures !ok ==> disk == old(disk) || Some(disk) == fn(data.Value())
      ensures fn(old(data.Value())).None? || io.NotSaved? ==> disk == old(disk)
      ensures fn(old(data.Value())).Some? && io.SavedUnseen? ==> Some(disk) == fn(data.Value())
    {
      var clone := Clone(data);
      var next := fn(clone.Value());
      if next.None? {
        return false;
      }
      ok := WriteAtomic(next.value, io);
      if !io.NotSaved? {
        last := fn;
      }
      if ok {
        data := new Records(next.value);
      }
    }
  }

  /** Overwriting a snapshot leaves the store and every later snapshot as they were. */
  method SnapshotIsIsolated(store: Store, s: State) returns (before: Records, after: Records)
    requires store.Valid()
    ensures store.Valid() && store.data == old(store.data) && store.disk == old(store.disk)
    ensures store.data.Value() == old(store.data.Value())
    ensures before.Value() == s && after.Value() == old(store.data.Value())
  {
    before := store.Snapshot();
    before.armedAt, before.workflows := s.armedAt, s.workflows;
    before.idempotency, before.notifications := s.idempotency, s.notifications;
    after := store.Snapshot();
  }
}
