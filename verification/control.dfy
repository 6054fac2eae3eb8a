/** The four control calls, each all-or-nothing and idempotent under its key. */
module Control {
  import opened Model
  import opened Inventory
  import opened Edits
  import opened Plans
  import opened World
  import opened Good
  import opened Stores
  import opened Text
  import opened Material

  // ---- requests ------------------------------------------------------------------------

  function LowerChar(c: char): char { if 'A' <= c <= 'Z' then (c as int + 32) as char else c }

  function Lower(s: string): string {
    if s == "" then "" else [LowerChar(s[0])] + Lower(s[1..])
  }

  function TrimDot(s: string): string {
    if s != "" && s[|s| - 1] == '.' then s[..|s| - 1] else s
  }

  function Normalise(name: string): string { TrimDot(Lower(Trim(name))) }

  function NameSet(zones: seq<string>): set<string> { set z <- zones :: Normalise(z) }

  function Elements(names: seq<string>): set<string> { set n <- names }

  function NormaliseAll(zones: seq<string>): (r: seq<string>)
    ensures |r| == |zones| && forall i | 0 <= i < |zones| :: r[i] == Normalise(zones[i])
  {
    if zones == [] then [] else [Normalise(zones[0])] + NormaliseAll(zones[1..])
  }

  lemma SortedElements(s: seq<string>)
    ensures Elements(SortStrings(s)) == Elements(s)
  {
    forall n
      ensures n in Elements(SortStrings(s)) <==> n in Elements(s)
    {
      assert n in SortStrings(s) <==> n in multiset(SortStrings(s));
      assert n in s <==> n in multiset(s);
    }
  }

  lemma NormalSet(zones: seq<string>)
    ensures Elements(NormaliseAll(zones)) == NameSet(zones)
  {
    forall z | z in zones
      ensures Normalise(z) in NormaliseAll(zones)
    {
      var i :| 0 <= i < |zones| && zones[i] == z;
      assert NormaliseAll(zones)[i] == Normalise(z);
    }
  }

  lemma ConsStrict(s: seq<string>, rest: seq<string>)
    requires s != [] && Sorted(s) && Strict(rest) && s[0] !in rest && Elements(rest) == Elements(s[1..])
    ensures Strict([s[0]] + rest)
  {
    forall i | 0 <= i < |rest|
      ensures Leq(s[0], rest[i])
    {
      assert rest[i] in Elements(s[1..]);
      var j :| 0 <= j < |s| - 1 && s[1..][j] == rest[i];
      assert s[j + 1] == rest[i];
    }
  }

  /** Drops later repetitions. */
  function Dedup(s: seq<string>): (r: seq<string>)
    ensures Elements(r) == Elements(s)
    ensures Sorted(s) ==> Strict(r)
  {
    if s == [] then []
    else
      var rest := Dedup(s[1..]);
      assert s == [s[0]] + s[1..];
      assert Elements(s) == {s[0]} + Elements(s[1..]);
      assert forall x :: x in rest <==> x in Elements(rest);
      assert forall x :: x in s[1..] <==> x in Elements(s[1..]);
      assert Sorted(s) ==> Sorted(s[1..]);
      assert Sorted(s) && s[0] !in rest ==> Strict([s[0]] + rest) by {
        if Sorted(s) && s[0] !in rest {
          ConsStrict(s, rest);
        }
      }
      if s[0] in rest then rest else [s[0]] + rest
  }

  /** The normalised names, sorted, each once. */
  function CanonicalOf(zones: seq<string>): (names: seq<string>)
    ensures Strict(names) && Elements(names) == NameSet(zones)
  {
    var sorted := SortStrings(NormaliseAll(zones));
    SortedElements(NormaliseAll(zones));
    NormalSet(zones);
    Dedup(sorted)
  }

  lemma ElementsDecide(a: seq<string>, b: seq<string>)
    requires Strict(a) && Strict(b) && Elements(a) == Elements(b)
    ensures a == b
  {
    forall x
      ensures x in a <==> x in b
    {
      assert x in a <==> x in Elements(a);
      assert x in b <==> x in Elements(b);
    }
    StrictUnique(a, b);
  }

  /** Normalise, sort, compact. */
  method Canonical(zones: seq<string>) returns (names: seq<string>)
    ensures names == CanonicalOf(zones)
  {
    var normalized := [];
    for i := 0 to |zones|
      invariant |normalized| == i && forall j | 0 <= j < i :: normalized[j] == Normalise(zones[j])
    {
      normalized := normalized + [Normalise(zones[i])];
    }
    assert normalized == NormaliseAll(zones);
    NormalSet(zones);
    var sorted := SortStrings(normalized);
    names := Compact(sorted);
    SortedElements(normalized);
    assert forall n :: n in names <==> n in Elements(sorted);
    assert Elements(names) == Elements(sorted) == NameSet(zones);
    ElementsDecide(names, CanonicalOf(zones));
  }

  function TriggerPrint(kind: Kind, names: seq<string>): string { KindName(kind) + "|" + Join(names) }

  function ResumePrint(names: seq<string>): string { "resume" + "|" + ("split|wait_publish|" + Join(names)) }

  function AttestPrint(name: string): string { "reconcile-split-signer" + "|" + name }

  /** The fingerprint of a batch depends on nothing but the set of normalised names. */
  lemma PrintOfSet(kind: Kind, a: seq<string>, b: seq<string>)
    requires Strict(a) && Strict(b) && Elements(a) == Elements(b)
    ensures TriggerPrint(kind, a) == TriggerPrint(kind, b) && ResumePrint(a) == ResumePrint(b)
  {
    ElementsDecide(a, b);
  }

  /** Fingerprints of comma-free, non-empty batches tell the requests apart. */
  lemma PrintSeparates(k1: Kind, a: seq<string>, k2: Kind, b: seq<string>)
    requires CommaFree(a) && CommaFree(b) && a != [] && b != []
    ensures TriggerPrint(k1, a) == TriggerPrint(k2, b) ==> k1 == k2 && a == b
    ensures ResumePrint(a) == ResumePrint(b) ==> a == b
  {
    if TriggerPrint(k1, a) == TriggerPrint(k2, b) {
      SplitUnique(KindName(k1), Join(a), KindName(k2), Join(b), '|');
      assert KindName(k1)[0] == KindName(k2)[0];
      JoinSeparates(a, b);
    }
    if ResumePrint(a) == ResumePrint(b) {
      var p := "split|wait_publish|";
      SplitUnique("resume", p + Join(a), "resume", p + Join(b), '|');
      assert (p + Join(a))[|p|..] == Join(a) && (p + Join(b))[|p|..] == Join(b);
      JoinSeparates(a, b);
    }
  }

  /** No fingerprint of one call is one of another. */
  lemma PrintsApart(kind: Kind, a: seq<string>, b: seq<string>, name: string)
    ensures TriggerPrint(kind, a) != ResumePrint(b) && TriggerPrint(kind, a) != AttestPrint(name)
    ensures ResumePrint(b) != AttestPrint(name)
    ensures ARM_PRINT !in {TriggerPrint(kind, a), ResumePrint(b), AttestPrint(name)}
  {
    var n := KindName(kind);
    assert '|' !in n;
    assert TriggerPrint(kind, a)[|n|] == '|';
    assert ResumePrint(b)[0..6] == "resume" && ResumePrint(b)[6] == '|';
    assert AttestPrint(name)[..22] == "reconcile-split-signer" && AttestPrint(name)[22] == '|';
    assert TriggerPrint(kind, a)[..|n|] == n;
    assert forall i | 0 <= i < |ARM_PRINT| :: ARM_PRINT[i] != '|';
    if TriggerPrint(kind, a) == ResumePrint(b) {
      SplitUnique(n, Join(a), "resume", "split|wait_publish|" + Join(b), '|');
    }
    if TriggerPrint(kind, a) == AttestPrint(name) {
      SplitUnique(n, Join(a), "reconcile-split-signer", name, '|');
    }
  }

  // ---- zones -------------------------------------------------------------------------------

  /** Trigger looks zones up as spelled, Resume in lower case. */
  function Spelling(name: string, fold: bool): string { if fold then Lower(name) else name }

  /** The last listed zone with this name, with or without its final dot. */
  function Resolve(listing: seq<Zone>, name: string, fold: bool): Option<Zone> {
    if listing == [] then None
    else
      var z := listing[|listing| - 1];
      if Spelling(z.name, fold) == name || TrimDot(Spelling(z.name, fold)) == name then Some(z)
      else Resolve(listing[..|listing| - 1], name, fold)
  }

  /** The index of the source, filled zone by zone. */
  method Index(listing: seq<Zone>, fold: bool) returns (byName: map<string, Zone>)
    ensures forall name :: (if name in byName then Some(byName[name]) else None) == Resolve(listing, name, fold)
  {
    byName := map[];
    for i := 0 to |listing|
      invariant forall name :: (if name in byName then Some(byName[name]) else None) == Resolve(listing[..i], name, fold)
    {
      var z := listing[i];
      assert listing[..i + 1][..i] == listing[..i];
      byName := byName[Spelling(z.name, fold) := z];
      byName := byName[TrimDot(Spelling(z.name, fold)) := z];
    }
    assert listing[..|listing|] == listing;
  }

  predicate Triggerable(cfg: Config, kind: Kind, z: Option<Zone>, lists: map<string, seq<Key>>) {
    && z.Some? && z.value.dnssec && z.value.name in cfg.selected && z.value.name in lists
    && KeyScheme(lists[z.value.name]) == (if kind.Split? then CskScheme else SplitScheme)
  }

  /** The canonical zone names of a request, None when one of them does not qualify. */
  function ResolveAll(cfg: Config, kind: Kind, names: seq<string>, listing: seq<Zone>, lists: map<string,
                      seq<Key>>): Option<seq<string>> {
    if names == [] then Some([])
    else
      var before := ResolveAll(cfg, kind, names[..|names| - 1], listing, lists);
      var z := Resolve(listing, names[|names| - 1], false);
      if before.None? || !Triggerable(cfg, kind, z, lists) then None else Some(before.value + [z.value.name])
  }

  lemma {:induction false} UnresolvedStays(cfg: Config, kind: Kind, names: seq<string>, i: nat, listing: seq<Zone>,
                                           lists: map<string, seq<Key>>)
    requires i < |names| && !Triggerable(cfg, kind, Resolve(listing, names[i], false), lists)
    ensures ResolveAll(cfg, kind, names, listing, lists).None?
  {
    if i < |names| - 1 {
      UnresolvedStays(cfg, kind, names[..|names| - 1], i, listing, lists);
    }
  }

  method ResolveZones(cfg: Config, kind: Kind, names: seq<string>, listing: seq<Zone>, lists: map<string, seq<Key>>)
    returns (r: Option<seq<string>>)
    ensures r == ResolveAll(cfg, kind, names, listing, lists)
  {
    var byName := Index(listing, false);
    var canonical := [];
    for i := 0 to |names|
      invariant ResolveAll(cfg, kind, names[..i], listing, lists) == Some(canonical)
    {
      assert names[..i + 1][..i] == names[..i];
      var z := if names[i] in byName then Some(byName[names[i]]) else None;
      if !Triggerable(cfg, kind, z, lists) {
        UnresolvedStays(cfg, kind, names, i, listing, lists);
        return None;
      }
      canonical := canonical + [z.value.name];
    }
    assert names[..|names|] == names;
    return Some(canonical);
  }

  predicate Recoverable(cfg: Config, s: State, z: Option<Zone>, evs: map<string, Evidence>) {
    && z.Some? && z.value.dnssec && z.value.name in cfg.selected && z.value.name in evs
    && ResumeReady(Lookup(s, WorkflowId(z.value.name, Split)), evs[z.value.name])
  }

  /** The blocked records a resume would move, None when one zone does not qualify. */
  function RecoverAll(cfg: Config, s: State, names: seq<string>, listing: seq<Zone>, evs: map<string,
                      Evidence>): Option<seq<Workflow>> {
    if names == [] then Some([])
    else
      var before := RecoverAll(cfg, s, names[..|names| - 1], listing, evs);
      var z := Resolve(listing, names[|names| - 1], true);
      if before.None? || !Recoverable(cfg, s, z, evs) then None
      else Some(before.value + [Lookup(s, WorkflowId(z.value.name, Split))])
  }

  lemma {:induction false} UnrecoveredStays(cfg: Config, s: State, names: seq<string>, i: nat, listing: seq<Zone>,
                                            evs: map<string, Evidence>)
    requires i < |names| && !Recoverable(cfg, s, Resolve(listing, names[i], true), evs)
    ensures RecoverAll(cfg, s, names, listing, evs).None?
  {
    if i < |names| - 1 {
      UnrecoveredStays(cfg, s, names[..|names| - 1], i, listing, evs);
    }
  }

  method Recoveries(cfg: Config, s: State, names: seq<string>, listing: seq<Zone>, evs: map<string, Evidence>)
    returns (r: Option<seq<Workflow>>)
    ensures r == RecoverAll(cfg, s, names, listing, evs)
  {
    var byName := Index(listing, true);
    var items := [];
    for i := 0 to |names|
      invariant RecoverAll(cfg, s, names[..i], listing, evs) == Some(items)
    {
      assert names[..i + 1][..i] == names[..i];
      var z := if names[i] in byName then Some(byName[names[i]]) else None;
      if !Recoverable(cfg, s, z, evs) {
        UnrecoveredStays(cfg, s, names, i, listing, evs);
        return None;
      }
      items := items + [Lookup(s, WorkflowId(z.value.name, Split))];
    }
    assert names[..|names|] == names;
    return Some(items);
  }

  /** The first listed zone with this name. */
  function FirstNamed(listing: seq<Zone>, name: string): Option<Zone> {
    if listing == [] then None
    else if TrimDot(Lower(listing[0].name)) == name then Some(listing[0])
    else FirstNamed(listing[1..], name)
  }

  method FindNamed(listing: seq<Zone>, name: string) returns (r: Option<Zone>)
    ensures r == FirstNamed(listing, name)
  {
    for i := 0 to |listing|
      invariant FirstNamed(listing, name) == FirstNamed(listing[i..], name)
    {
      if TrimDot(Lower(listing[i].name)) == name {
        return Some(listing[i]);
      }
    }
    return None;
  }

  /** The attestation of one zone, when all its proofs hold. */
  function AttestEdit(cfg: Config, s: State, z: Option<Zone>, evs: map<string, Evidence>, idem: string,
                      request: string): Option<Edit> {
    if z.None? || z.value.name == "" || !z.value.dnssec || z.value.name !in cfg.selected || z.value.name !in evs then None
    else
      var w := Lookup(s, WorkflowId(z.value.name, Split));
      if !AttestReady(cfg, w, evs[z.value.name]) then None
      else Some(Attest(w, Max(w.zoneTtl, SignerEvidence(cfg, w, evs[z.value.name]).value), idem, request))
  }

  // ---- the calls ------------------------------------------------------------------------------

  predicate KeyFits(idem: string) { 16 <= |idem| <= 128 }

  /** What one store update does to memory m and file f. */
  predicate Effect(cfg: Config, now: Time, edit: Edit, io: Io, ok: bool, m: State, f: State, m2: State, f2: State) {
    var next := Apply(cfg, now, edit, m);
    && ok == (next.Some? && io.Saved?)
    && m2 == (if ok then next.value else m)
    && f2 == (if next.Some? && !io.NotSaved? then next.value else f)
  }

  /** A control call: refused by its key's length, answered from the key, or carried out as
      one update. `edit` is None when the request does not qualify. */
  predicate Answer(cfg: Config, now: Time, idem: string, request: string, edit: Option<Edit>, io: Io, ok: bool,
                    m: State, f: State, m2: State, f2: State)
  {
    if !KeyFits(idem) then !ok && m2 == m && f2 == f
    else if idem in m.idempotency then ok == (m.idempotency[idem] == request) && m2 == m && f2 == f
    else if edit.None? then !ok && m2 == m && f2 == f
    else Effect(cfg, now, edit.value, io, ok, m, f, m2, f2)
  }

  class Plane {
    const cfg: Config
    const store: Store

    constructor (cfg: Config, store: Store)
      ensures this.cfg == cfg && this.store == store
    {
      this.cfg, this.store := cfg, store;
    }

    method Update(now: Time, edit: Edit, io: Io) returns (ok: bool)
      requires store.Valid()
      modifies store
      ensures store.Valid()
      ensures Effect(cfg, now, edit, io, ok, old(store.data.Value()), old(store.disk), store.data.Value(), store.disk)
    {
      var c := cfg;
      ok := store.Update((s: State) => Apply(c, now, edit, s), io);
    }

    method Trigger(now: Time, kind: Kind, zones: seq<string>, idem: string, listing: seq<Zone>, lists: map<string,
                   seq<Key>>, io: Io) returns (ok: bool)
      requires store.Valid()
      modifies store
      ensures store.Valid()
      ensures var names := CanonicalOf(zones);
              var canonical := ResolveAll(cfg, kind, names, listing, lists);
              var print_ := TriggerPrint(kind, names);
              Answer(cfg, now, idem, print_,
                      if canonical.Some? then Some(TriggerAll(kind, canonical.value, idem, print_)) else None, io, ok,
                      old(store.data.Value()), old(store.disk), store.data.Value(), store.disk)
    {
      if !KeyFits(idem) {
        return false;
      }
      var names := Canonical(zones);
      var print_ := TriggerPrint(kind, names);
      var snapshot := store.Snapshot();
      if idem in snapshot.idempotency {
        return snapshot.idempotency[idem] == print_;
      }
      var canonical := ResolveZones(cfg, kind, names, listing, lists);
      if canonical.None? {
        return false;
      }
      ok := Update(now, TriggerAll(kind, canonical.value, idem, print_), io);
    }

    /** Only split workflows, only back to the publication wait, at most a hundred zones. */
    method Resume(now: Time, kind: Kind, phase: Phase, zones: seq<string>, idem: string, listing: seq<Zone>,
                  evs: map<string, Evidence>, io: Io) returns (ok: bool)
      requires store.Valid()
      modifies store
      ensures store.Valid()
      ensures var names := CanonicalOf(zones);
              var s := old(store.data.Value());
              if kind != Split || phase != WaitPublish || names == [] || |names| > 100
              then !ok && store.data.Value() == s && store.disk == old(store.disk)
              else
                var items := RecoverAll(cfg, s, names, listing, evs);
                Answer(cfg, now, idem, ResumePrint(names),
                       if items.Some? then Some(ResumeAll(items.value, idem, ResumePrint(names))) else None, io, ok,
                       s, old(store.disk), store.data.Value(), store.disk)
    {
      if kind != Split || phase != WaitPublish || !KeyFits(idem) {
        return false;
      }
      var names := Canonical(zones);
      if names == [] || |names| > 100 {
        return false;
      }
      var request := ResumePrint(names);
      var snapshot := store.Snapshot();
      if idem in snapshot.idempotency {
        return snapshot.idempotency[idem] == request;
      }
      var items := Recoveries(cfg, snapshot.Value(), names, listing, evs);
      if items.None? {
        return false;
      }
      ok := Update(now, ResumeAll(items.value, idem, request), io);
    }

    method ReconcileSplitSignerTransition(now: Time, requested: string, idem: string, listing: seq<Zone>,
                                          evs: map<string, Evidence>, io: Io) returns (ok: bool)
      requires store.Valid()
      modifies store
      ensures store.Valid()
      ensures var name := Normalise(requested);
              var s := old(store.data.Value());
              if name == "" then !ok && store.data.Value() == s && store.disk == old(store.disk)
              else Answer(cfg, now, idem, AttestPrint(name),
                          AttestEdit(cfg, s, FirstNamed(listing, name), evs, idem, AttestPrint(name)), io, ok,
                          s, old(store.disk), store.data.Value(), store.disk)
    {
      var name := Normalise(requested);
      if !KeyFits(idem) || name == "" {
        return false;
      }
      var request := AttestPrint(name);
      var snapshot := store.Snapshot();
      if idem in snapshot.idempotency {
        return snapshot.idempotency[idem] == request;
      }
      var zone := FindNamed(listing, name);
      var edit := AttestEdit(cfg, snapshot.Value(), zone, evs, idem, request);
      if edit.None? {
        return false;
      }
      ok := Update(now, edit.value, io);
    }

    /** `permitted` says that enrollment is enabled for all selected zones; the listing is
        None when it could not be read. */
    method ArmEnrollment(now: Time, permitted: bool, idem: string, listing: Option<seq<Zone>>, io: Io)
      returns (ok: bool)
      requires store.Valid()
      modifies store
      ensures store.Valid()
      ensures var s := old(store.data.Value());
              if !permitted then !ok && store.data.Value() == s && store.disk == old(store.disk)
              else Answer(cfg, now, idem, ARM_PRINT,
                          if s.armedAt == UNSET && listing.Some? then Some(Arm(listing.value, idem)) else None, io, ok,
                          s, old(store.disk), store.data.Value(), store.disk)
    {
      if !permitted || !KeyFits(idem) {
        return false;
      }
      var snapshot := store.Snapshot();
      if idem in snapshot.idempotency {
        return snapshot.idempotency[idem] == ARM_PRINT;
      }
      if snapshot.armedAt != UNSET || listing.None? {
        return false;
      }
      ok := Update(now, Arm(listing.value, idem), io);
    }
  }

  // ---- the calls within a run --------------------------------------------------------------------

  /** A trigger that resolves against truthful listings is the step a run takes. */
  lemma {:induction false} TriggerIsReady(cfg: Config, kind: Kind, names: seq<string>, listing: seq<Zone>,
                                          lists: map<string, seq<Key>>,
                                          envs: map<string, Env>, idem: string, request: string, io: Io)
    requires !kind.Enroll? && forall z <- lists :: z in envs && Lists(lists[z], envs[z].keys)
    requires ResolveAll(cfg, kind, names, listing, lists).Some?
    ensures TriggerReady(Request(kind, ResolveAll(cfg, kind, names, listing, lists).value, lists, idem, request, io), envs)
  {
    if names != [] {
      TriggerIsReady(cfg, kind, names[..|names| - 1], listing, lists, envs, idem, request, io);
    }
  }

  /** A resume moves blocked records of zones that pass every check of a run's resume step. */
  lemma {:induction false} ResumeIsReady(cfg: Config, s: State, names: seq<string>, listing: seq<Zone>,
                                         evs: map<string, Evidence>)
    returns (zones: seq<string>)
    requires RecoverAll(cfg, s, names, listing, evs).Some?
    ensures RecoverAll(cfg, s, names, listing, evs).value == SplitRecords(s, zones)
    ensures forall z <- zones :: z in evs && ResumeReady(Lookup(s, WorkflowId(z, Split)), evs[z])
  {
    if names == [] {
      zones := [];
    } else {
      var before := ResumeIsReady(cfg, s, names[..|names| - 1], listing, evs);
      var z := Resolve(listing, names[|names| - 1], true).value.name;
      zones := before + [z];
      assert SplitRecords(s, zones) == SplitRecords(s, before) + [Lookup(s, WorkflowId(z, Split))];
    }
  }

  // ---- idempotency ------------------------------------------------------------------------------

  function KeyOf(edit: Edit): Option<(string, string)> {
    match edit
    case TriggerAll(_, _, idem, request) => Some((idem, request))
    case ResumeAll(_, idem, request) => Some((idem, request))
    case Attest(_, _, idem, request) => Some((idem, request))
    case Arm(_, idem) => Some((idem, ARM_PRINT))
    case _ => None
  }

  /** A call that succeeded through its update left its key behind. */
  lemma KeyRecorded(cfg: Config, now: Time, edit: Edit, s: State, t: State)
    requires KeyOf(edit).Some? && Apply(cfg, now, edit, s) == Some(t)
    ensures var (idem, request) := KeyOf(edit).value; idem in t.idempotency && t.idempotency[idem] == request
  {}

  /** Repeating a call that succeeded succeeds again and changes nothing, whatever the zones,
      the evidence and the disk do by then; another request under its key changes nothing and
      fails. */
  lemma Replay(cfg: Config, now: Time, idem: string, request: string, edit: Option<Edit>, io: Io,
               m: State, f: State, m2: State, f2: State,
               later: Time, other: string, edit2: Option<Edit>, io2: Io, ok2: bool, m3: State, f3: State)
    requires edit.Some? ==> KeyOf(edit.value) == Some((idem, request))
    requires Answer(cfg, now, idem, request, edit, io, true, m, f, m2, f2)
    requires Answer(cfg, later, idem, other, edit2, io2, ok2, m2, f2, m3, f3)
    ensures m3 == m2 && f3 == f2 && ok2 == (other == request)
  {
    if idem !in m.idempotency {
      KeyRecorded(cfg, now, edit.value, m, m2);
    }
  }

  /** A call that fails leaves memory alone; the file too, unless the update reached it. */
  lemma AllOrNothing(cfg: Config, now: Time, idem: string, request: string, edit: Option<Edit>, io: Io, m: State,
                     f: State, m2: State, f2: State)
    requires Answer(cfg, now, idem, request, edit, io, false, m, f, m2, f2)
    ensures m2 == m
    ensures f2 == f || (edit.Some? && io.SavedUnseen? && Some(f2) == Apply(cfg, now, edit.value, m))
  {}
}
