/** The phase-indexed invariant over one zone: for the one active workflow, which keys are
    active, published and trusted, and which caches still hold what. */
module Good {
  import opened Model
  import Inventory
  import opened Edits
  import opened World
  import opened Facts

  predicate Has(e: Env, i: int, flags: int) { i in e.keys && Flag(e.keys[i]) == flags }

  /** One key z signs all cached zone data, one key k carries the chain of trust; beside
      them only further key-signing keys are active. A CSK is both at once. */
  ghost predicate Opening(e: Env, m: Time, z: int, k: int, now: Time) {
    && SignBase(e, m, {z}, now) && Trust(e, m, k, now)
    && z in Active(e.keys) && k in Active(e.keys) && k in e.cur.pub
    && Has(e, k, SEP_FLAGS) && (z == k || Has(e, z, ZONE_FLAGS))
    && forall i <- Active(e.keys) :: i == z || Has(e, i, SEP_FLAGS)
  }

  ghost predicate SteadyAt(e: Env, m: Time, z: int, k: int, now: Time) {
    Opening(e, m, z, k, now) && Active(e.keys) == {z, k}
  }

  /** A zone between workflows. */
  ghost predicate Steady(e: Env, m: Time, now: Time) { exists z, k :: SteadyAt(e, m, z, k, now) }

  ghost predicate ZskShape(w: Workflow, e: Env, m: Time, now: Time, k: int) {
    && Trust(e, m, k, now) && k in Active(e.keys) && k in e.cur.pub && Has(e, k, SEP_FLAGS)
    && w.oldKey != w.newKey && w.oldKey != k && w.newKey != k
    && Has(e, w.newKey, ZONE_FLAGS) && PubBy(e, m, w.newKey, now)
    && Active(e.keys) <= {w.oldKey, w.newKey, k}
  }

  ghost predicate GoodZsk(w: Workflow, e: Env, m: Time, now: Time, z: int, k: int) {
    match w.phase
    case Prepublish => SteadyAt(e, m, z, k, now) && (w.oldKey != 0 ==> w.oldKey == z && Has(e, z, ZONE_FLAGS))
    case WaitPublish =>
      SteadyAt(e, m, w.oldKey, k, now) && Has(e, w.oldKey, ZONE_FLAGS)
      && (w.evidenceAt != UNSET ==> PubBy(e, m, w.newKey, w.nextAt))
    case ActivateNew =>
      ZskShape(w, e, m, now, k) && SignBase(e, m, {w.oldKey}, now)
      && Has(e, w.oldKey, ZONE_FLAGS) && w.oldKey in Active(e.keys)
    case WaitNewSignature =>
      ZskShape(w, e, m, now, k) && SignBase(e, m, {w.oldKey}, now)
      && Has(e, w.oldKey, ZONE_FLAGS) && {w.oldKey, w.newKey} <= Active(e.keys)
    case DeactivateOld =>
      ZskShape(w, e, m, now, k) && SignBase(e, m, {w.oldKey, w.newKey}, now) && w.newKey in Active(e.keys)
    case WaitRetire =>
      ZskShape(w, e, m, now, k) && SignBase(e, m, {w.oldKey, w.newKey}, now)
      && Active(e.keys) == {w.newKey, k} && ZsBy(e, m, {w.newKey}, w.nextAt)
    case DeleteOld =>
      ZskShape(w, e, m, now, k) && SignBase(e, m, {w.newKey}, now) && Active(e.keys) == {w.newKey, k}
    case _ => false
  }

  ghost predicate KskShape(w: Workflow, e: Env, m: Time, now: Time, z: int) {
    && SignBase(e, m, {z}, now) && Has(e, z, ZONE_FLAGS) && Has(e, w.newKey, SEP_FLAGS)
    && z != w.oldKey && z != w.newKey && w.oldKey != w.newKey
    && ChainOn(e, m, w.newKey, now)
    && {z, w.newKey} <= Active(e.keys) <= {z, w.oldKey, w.newKey}
    && (w.oldKey in Active(e.keys) ==> w.oldKey in e.cur.pub)
  }

  ghost predicate GoodKsk(w: Workflow, e: Env, m: Time, now: Time, z: int, k: int) {
    match w.phase
    case Prepublish => Opening(e, m, z, k, now) && (if w.oldKey == 0 then Active(e.keys) == {z, k} else w.oldKey == k)
    case WaitPublish =>
      Opening(e, m, z, w.oldKey, now) && (w.evidenceAt != UNSET ==> ChainOn(e, m, w.newKey, w.nextAt))
    case ParentRemove =>
      KskShape(w, e, m, now, z) && TrustMid(e, m, w.oldKey, w.newKey, now)
      && Has(e, w.oldKey, SEP_FLAGS) && w.oldKey in Active(e.keys) && w.oldKey in e.cur.pub
    case WaitParentRemove =>
      KskShape(w, e, m, now, z) && TrustMid(e, m, w.oldKey, w.newKey, now)
      && Has(e, w.oldKey, SEP_FLAGS) && w.oldKey in Active(e.keys) && w.oldKey in e.cur.pub
      && (w.evidenceAt != UNSET ==> Settling(e, m, w.newKey, w.nextAt))
    case DeactivateOld => KskShape(w, e, m, now, z) && Settling(e, m, w.newKey, now)
    case DeleteOld =>
      KskShape(w, e, m, now, z) && Settling(e, m, w.newKey, now) && Active(e.keys) == {z, w.newKey}
    case _ => false
  }

  ghost predicate SplitShape(w: Workflow, e: Env, m: Time, now: Time) {
    && Inventory.DistinctSplitIds(w)
    && Has(e, w.newKey, SEP_FLAGS) && Has(e, w.newZsk, ZONE_FLAGS)
    && ChainOn(e, m, w.newKey, now) && PubBy(e, m, w.newZsk, now)
    && w.newKey in Active(e.keys) && Active(e.keys) <= {w.oldKey, w.newKey, w.newZsk}
  }

  /** Up to the activation of the ZSK the old CSK is active and signs everything. */
  ghost predicate SplitCsk(w: Workflow, e: Env, m: Time, now: Time) {
    && SignBase(e, m, {w.oldKey}, now) && TrustMid(e, m, w.oldKey, w.newKey, now)
    && Has(e, w.oldKey, SEP_FLAGS) && Active(e.keys) == {w.oldKey, w.newKey}
  }

  ghost predicate GoodSplit(w: Workflow, e: Env, m: Time, now: Time, z: int) {
    match w.phase
    case Prepublish => Opening(e, m, z, z, now) && (if w.oldKey == 0 then Active(e.keys) == {z} else w.oldKey == z)
    case WaitPublish =>
      Opening(e, m, w.oldKey, w.oldKey, now)
      && (w.evidenceAt != UNSET ==> ChainOn(e, m, w.newKey, w.nextAt) && PubBy(e, m, w.newZsk, w.nextAt))
    case ParentRemove => SplitShape(w, e, m, now) && SplitCsk(w, e, m, now)
    case WaitParentRemove =>
      SplitShape(w, e, m, now) && SplitCsk(w, e, m, now) && !w.reg.ctid.NoCtid?
      && (w.evidenceAt != UNSET ==> Settling(e, m, w.newKey, w.nextAt))
    case ActivateNew =>
      SplitShape(w, e, m, now) && Settling(e, m, w.newKey, now) && !w.reg.ctid.NoCtid?
      && SignBase(e, m, {w.oldKey, w.newZsk}, now) && Has(e, w.oldKey, SEP_FLAGS) && w.oldKey in Active(e.keys)
    case WaitNewSignature =>
      SplitShape(w, e, m, now) && Settling(e, m, w.newKey, now) && !w.reg.ctid.NoCtid?
      && SignBase(e, m, {w.oldKey, w.newZsk}, now) && {w.oldKey, w.newZsk} <= Active(e.keys)
    case DeactivateOld =>
      SplitShape(w, e, m, now) && Settling(e, m, w.newKey, now) && !w.reg.ctid.NoCtid?
      && SignBase(e, m, {w.oldKey, w.newZsk}, now) && w.newZsk in Active(e.keys)
    case WaitRetire =>
      SplitShape(w, e, m, now) && Settling(e, m, w.newKey, now) && !w.reg.ctid.NoCtid?
      && SignBase(e, m, {w.oldKey, w.newZsk}, now) && Active(e.keys) == {w.newKey, w.newZsk}
      && ZsBy(e, m, {w.newZsk}, w.nextAt)
    case DeleteOld =>
      SplitShape(w, e, m, now) && Settling(e, m, w.newKey, now) && !w.reg.ctid.NoCtid?
      && SignBase(e, m, {w.newZsk}, now) && Active(e.keys) == {w.newKey, w.newZsk}
    case _ => false
  }

  /** Enrollment never touches keys; once publication is proven the parent may learn of k. */
  ghost predicate EnrollShape(w: Workflow, e: Env, m: Time, now: Time, z: int, k: int) {
    && w.newKey == k && TrustMid(e, m, k, k, now)
    && SignBase(e, m, {z}, now) && Active(e.keys) == {z, k}
    && Has(e, k, SEP_FLAGS) && (z == k || Has(e, z, ZONE_FLAGS))
  }

  ghost predicate GoodEnroll(w: Workflow, e: Env, m: Time, now: Time, z: int, k: int) {
    match w.phase
    case EnrollDiscovered => SteadyAt(e, m, z, k, now)
    case EnrollWaitPublish =>
      SteadyAt(e, m, z, k, now) && w.newKey != 0 && (w.evidenceAt != UNSET ==> w.newKey == k && ChainOn(e, m, k, w.nextAt))
    case EnrollParentAdd => EnrollShape(w, e, m, now, z, k)
    case EnrollWaitParent => EnrollShape(w, e, m, now, z, k)
    case _ => false
  }

  // ---- what holds whatever happens next ---------------------------------------------

  /** The keys of c carry the chain of trust for every cached and every coming DS RRset. */
  ghost predicate ChainBase(e: Env, m: Time, c: set<int>, t: Time) {
    && (forall k <- c :: ChainOn(e, m, k, t)) && DsBy(e, m, c, t)
    && (e.cur.ds != {} ==> e.cur.ds * c != {})
    && (Claim(e.remote) != {} ==> Claim(e.remote) * c != {}) && e.pending <= c
  }

  ghost predicate ServesKsk(e: Env, k: int) { k in Active(e.keys) && k in e.cur.pub && Has(e, k, SEP_FLAGS) }

  ghost predicate SafeEnv(e: Env, m: Time, now: Time) {
    && (exists s :: SignBase(e, m, s, now))
    && (exists c :: ChainBase(e, m, c, now))
    && (exists k :: ServesKsk(e, k))
  }

  ghost predicate GoodBlocked(w: Workflow, e: Env, m: Time, now: Time) {
    SafeEnv(e, m, now)
    && (w.kind.Split? && w.oldKey != 0 && w.reg.ctid.NoCtid? ==> Opening(e, m, w.oldKey, w.oldKey, now))
  }

  ghost predicate GoodRecord(w: Workflow, e: Env, m: Time, now: Time) {
    if w.phase.Blocked? then GoodBlocked(w, e, m, now)
    else match w.kind
      case ZSK => exists z, k :: GoodZsk(w, e, m, now, z, k)
      case KSK => exists z, k :: GoodKsk(w, e, m, now, z, k)
      case Split => exists z :: GoodSplit(w, e, m, now, z)
      case Enroll => exists z, k :: GoodEnroll(w, e, m, now, z, k)
  }

  /** An idle rotation record starts the next instance from nothing. */
  predicate Clean(w: Workflow) {
    && w.oldKey == 0 && w.newKey == 0 && w.newZsk == 0
    && w.newKeyTriedAt == UNSET && w.newZskTriedAt == UNSET
    && w.evidenceAt == UNSET && w.zoneTtl == 0 && w.dsTtl == 0 && w.dnskeyTtl == 0
    && w.reg == NO_REGISTRATION && w.parentMode.NoMode? && w.signerAt == UNSET
  }

  /** The records of one zone. */
  datatype Records = Records(zsk: Workflow, ksk: Workflow, split: Workflow, enroll: Workflow)

  function RecordsOf(s: State, zone: string): Records {
    Records(Lookup(s, WorkflowId(zone, ZSK)), Lookup(s, WorkflowId(zone, KSK)),
            Lookup(s, WorkflowId(zone, Split)), Lookup(s, WorkflowId(zone, Enroll)))
  }

  predicate NoneActive(r: Records) { !r.zsk.Active() && !r.ksk.Active() && !r.split.Active() && !r.enroll.Active() }

  function RecordOf(r: Records, kind: Kind): Workflow {
    match kind case ZSK => r.zsk case KSK => r.ksk case Split => r.split case Enroll => r.enroll
  }

  predicate OnlyActive(r: Records, kind: Kind) {
    RecordOf(r, kind).Active() && forall other: Kind :: other != kind ==> !RecordOf(r, other).Active()
  }

  predicate WellFiled(r: Records, zone: string) {
    && r.zsk.Id() == WorkflowId(zone, ZSK) && r.ksk.Id() == WorkflowId(zone, KSK)
    && r.split.Id() == WorkflowId(zone, Split) && r.enroll.Id() == WorkflowId(zone, Enroll)
  }

  ghost predicate ZoneInv(cfg: Config, r: Records, e: Env, now: Time) {
    && (!r.zsk.Active() ==> Clean(r.zsk)) && (!r.ksk.Active() ==> Clean(r.ksk)) && (!r.split.Active() ==> Clean(r.split))
    && SafeEnv(e, cfg.margin, now)
    && (NoneActive(r) ==> Steady(e, cfg.margin, now))
    && forall kind: Kind :: OnlyActive(r, kind) ==> GoodRecord(RecordOf(r, kind), e, cfg.margin, now)
  }

  // ---- every good state is safe ------------------------------------------------------

  lemma SafeFrom(e: Env, m: Time, now: Time, s: set<int>, c: set<int>, k: int)
    requires SignBase(e, m, s, now) && ChainBase(e, m, c, now) && ServesKsk(e, k)
    ensures SafeEnv(e, m, now)
  {}

  lemma TrustIsSafe(e: Env, m: Time, now: Time, k: int) returns (c: set<int>)
    requires Trust(e, m, k, now)
    ensures ChainBase(e, m, c, now)
  {
    c := if ChainOn(e, m, k, now) then {k} else {};
    assert e.cur.ds != {} ==> k in e.cur.ds * {k};
    assert Claim(e.remote) != {} ==> k in Claim(e.remote) * {k};
  }

  lemma TrustMidIsSafe(e: Env, m: Time, now: Time, o: int, n: int) returns (c: set<int>)
    requires TrustMid(e, m, o, n, now)
    ensures ChainBase(e, m, c, now)
  {
    c := if ChainOn(e, m, o, now) then {o, n} else {n};
    assert e.cur.ds * c == e.cur.ds && Claim(e.remote) * c == Claim(e.remote);
  }

  lemma SettlingIsSafe(e: Env, m: Time, now: Time, n: int)
    requires ChainOn(e, m, n, now) && Settling(e, m, n, now)
    ensures ChainBase(e, m, {n}, now)
    ensures Trust(e, m, n, now)
  {
    assert n in e.cur.ds * {n} && n in Claim(e.remote) * {n};
  }

  lemma OpeningIsSafe(e: Env, m: Time, now: Time, z: int, k: int)
    requires Opening(e, m, z, k, now)
    ensures SafeEnv(e, m, now)
  {
    var c := TrustIsSafe(e, m, now, k);
    SafeFrom(e, m, now, {z}, c, k);
  }

  lemma GoodIsSafe(w: Workflow, e: Env, m: Time, now: Time)
    requires EnvInv(e, now) && GoodRecord(w, e, m, now)
    ensures SafeEnv(e, m, now)
  {
    if w.phase.Blocked? {
    } else if w.kind.ZSK? {
      var z, k :| GoodZsk(w, e, m, now, z, k);
      var c := TrustIsSafe(e, m, now, k);
      var s := if w.phase.Prepublish? then {z}
               else if w.phase.DeleteOld? then {w.newKey}
               else if w.phase.DeactivateOld? || w.phase.WaitRetire? then {w.oldKey, w.newKey} else {w.oldKey};
      SafeFrom(e, m, now, s, c, k);
    } else if w.kind.KSK? {
      var z, k :| GoodKsk(w, e, m, now, z, k);
      if w.phase.Prepublish? {
        OpeningIsSafe(e, m, now, z, k);
      } else if w.phase.WaitPublish? {
        OpeningIsSafe(e, m, now, z, w.oldKey);
      } else if w.phase.ParentRemove? || w.phase.WaitParentRemove? {
        var c := TrustMidIsSafe(e, m, now, w.oldKey, w.newKey);
        SafeFrom(e, m, now, {z}, c, w.newKey);
      } else {
        SettlingIsSafe(e, m, now, w.newKey);
        SafeFrom(e, m, now, {z}, {w.newKey}, w.newKey);
      }
    } else if w.kind.Split? {
      var z :| GoodSplit(w, e, m, now, z);
      if w.phase.Prepublish? {
        OpeningIsSafe(e, m, now, z, z);
      } else if w.phase.WaitPublish? {
        OpeningIsSafe(e, m, now, w.oldKey, w.oldKey);
      } else if w.phase.ParentRemove? || w.phase.WaitParentRemove? {
        var c := TrustMidIsSafe(e, m, now, w.oldKey, w.newKey);
        SafeFrom(e, m, now, {w.oldKey}, c, w.newKey);
      } else {
        SettlingIsSafe(e, m, now, w.newKey);
        SafeFrom(e, m, now, if w.phase.DeleteOld? then {w.newZsk} else {w.oldKey, w.newZsk}, {w.newKey}, w.newKey);
      }
    } else {
      var z, k :| GoodEnroll(w, e, m, now, z, k);
      if w.phase.EnrollDiscovered? || w.phase.EnrollWaitPublish? {
        OpeningIsSafe(e, m, now, z, k);
      } else {
        var c := TrustMidIsSafe(e, m, now, k, k);
        SafeFrom(e, m, now, {z}, c, k);
      }
    }
  }
}
