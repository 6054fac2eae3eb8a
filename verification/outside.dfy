/** Steps the controller does not take: time, the registrar, the parent, TTL changes and
    PowerDNS relabelling. Each keeps every good zone good. */
module OutsideSteps {
  import opened Model
  import opened Edits
  import opened World
  import opened Facts
  import opened Good

  /** All facts of zone e at time t still hold of e2 at any later time. */
  ghost predicate Keeps(e: Env, e2: Env, m: Time) {
    && Active(e2.keys) == Active(e.keys) && e2.cur.pub == e.cur.pub
    && (forall i, flags :: Has(e, i, flags) ==> Has(e2, i, flags))
    && (forall k, t, u :: PubBy(e, m, k, t) && t <= u ==> PubBy(e2, m, k, u))
    && (forall k, t, u :: ChainOn(e, m, k, t) && t <= u ==> ChainOn(e2, m, k, u))
    && (forall s, t, u :: ZsBy(e, m, s, t) && t <= u ==> ZsBy(e2, m, s, u))
    && (forall s, t, u :: SignBase(e, m, s, t) && t <= u ==> SignBase(e2, m, s, u))
    && (forall k, t, u :: Trust(e, m, k, t) && t <= u ==> Trust(e2, m, k, u))
    && (forall o, n, t, u :: TrustMid(e, m, o, n, t) && t <= u ==> TrustMid(e2, m, o, n, u))
    && (forall k, t, u :: Settling(e, m, k, t) && t <= u ==> Settling(e2, m, k, u))
    && (forall c, t, u :: ChainBase(e, m, c, t) && t <= u ==> ChainBase(e2, m, c, u))
  }

  lemma OpeningKept(e: Env, e2: Env, m: Time, z: int, k: int, now: Time, later: Time)
    requires Keeps(e, e2, m) && now <= later && Opening(e, m, z, k, now)
    ensures Opening(e2, m, z, k, later)
  {}

  lemma ZskKept(w: Workflow, e: Env, e2: Env, m: Time, now: Time, later: Time, z: int, k: int)
    requires Keeps(e, e2, m) && now <= later && GoodZsk(w, e, m, now, z, k)
    ensures GoodZsk(w, e2, m, later, z, k)
  {
    if w.phase.Prepublish? {
      OpeningKept(e, e2, m, z, k, now, later);
    } else if w.phase.WaitPublish? {
      OpeningKept(e, e2, m, w.oldKey, k, now, later);
    }
  }

  lemma KskKept(w: Workflow, e: Env, e2: Env, m: Time, now: Time, later: Time, z: int, k: int)
    requires Keeps(e, e2, m) && now <= later && GoodKsk(w, e, m, now, z, k)
    ensures GoodKsk(w, e2, m, later, z, k)
  {
    if w.phase.Prepublish? {
      OpeningKept(e, e2, m, z, k, now, later);
    } else if w.phase.WaitPublish? {
      OpeningKept(e, e2, m, z, w.oldKey, now, later);
    }
  }

  lemma SplitKept(w: Workflow, e: Env, e2: Env, m: Time, now: Time, later: Time, z: int)
    requires Keeps(e, e2, m) && now <= later && GoodSplit(w, e, m, now, z)
    ensures GoodSplit(w, e2, m, later, z)
  {
    if w.phase.Prepublish? {
      OpeningKept(e, e2, m, z, z, now, later);
    } else if w.phase.WaitPublish? {
      OpeningKept(e, e2, m, w.oldKey, w.oldKey, now, later);
    }
  }

  lemma SafeKept(e: Env, e2: Env, m: Time, now: Time, later: Time)
    requires Keeps(e, e2, m) && now <= later
    ensures SafeEnv(e, m, now) ==> SafeEnv(e2, m, later)
    ensures Steady(e, m, now) ==> Steady(e2, m, later)
  {
    if SafeEnv(e, m, now) {
      var s :| SignBase(e, m, s, now);
      var c :| ChainBase(e, m, c, now);
      var k :| ServesKsk(e, k);
      SafeFrom(e2, m, later, s, c, k);
    }
    if Steady(e, m, now) {
      var z, k :| SteadyAt(e, m, z, k, now);
      OpeningKept(e, e2, m, z, k, now, later);
      assert SteadyAt(e2, m, z, k, later);
    }
  }

  lemma GoodKept(w: Workflow, e: Env, e2: Env, m: Time, now: Time, later: Time)
    requires Keeps(e, e2, m) && now <= later && GoodRecord(w, e, m, now)
    ensures GoodRecord(w, e2, m, later)
  {
    if w.phase.Blocked? {
      SafeKept(e, e2, m, now, later);
      if Opening(e, m, w.oldKey, w.oldKey, now) {
        OpeningKept(e, e2, m, w.oldKey, w.oldKey, now, later);
      }
    } else if w.kind.ZSK? {
      var z, k :| GoodZsk(w, e, m, now, z, k);
      ZskKept(w, e, e2, m, now, later, z, k);
    } else if w.kind.KSK? {
      var z, k :| GoodKsk(w, e, m, now, z, k);
      KskKept(w, e, e2, m, now, later, z, k);
    } else if w.kind.Split? {
      var z :| GoodSplit(w, e, m, now, z);
      SplitKept(w, e, e2, m, now, later, z);
    } else {
      var z, k :| GoodEnroll(w, e, m, now, z, k);
      if w.phase.EnrollDiscovered? || w.phase.EnrollWaitPublish? {
        OpeningKept(e, e2, m, z, k, now, later);
      }
      assert GoodEnroll(w, e2, m, later, z, k);
    }
  }

  lemma ZoneKept(cfg: Config, r: Records, e: Env, e2: Env, now: Time, later: Time)
    requires Keeps(e, e2, cfg.margin) && now <= later && ZoneInv(cfg, r, e, now)
    ensures ZoneInv(cfg, r, e2, later)
  {
    SafeKept(e, e2, cfg.margin, now, later);
    forall kind: Kind | OnlyActive(r, kind)
      ensures GoodRecord(RecordOf(r, kind), e2, cfg.margin, later)
    {
      GoodKept(RecordOf(r, kind), e, e2, cfg.margin, now, later);
    }
  }

  // ---- the steps ---------------------------------------------------------------------

  lemma WaitingKeeps(e: Env, m: Time)
    ensures Keeps(e, e, m)
  {
    forall t: Time, u: Time | t <= u {
      Later(e, m, t, u);
    }
  }

  lemma RegistrarKeeps(e: Env, m: Time, key: int)
    requires key in e.pending
    ensures Keeps(e, Applied(e, key), m)
  {
    var e2 := Applied(e, key);
    Carry(e, e2, m, 0);
    assert Claim(e2.remote) == {key};
    forall t: Time, u: Time | t <= u {
      Later(e2, m, t, u);
    }
    forall c, t, u | ChainBase(e, m, c, t) && t <= u
      ensures ChainBase(e2, m, c, u)
    {
      assert key in Claim(e2.remote) * c;
      Later(e2, m, t, u);
    }
  }

  lemma ParentKeeps(e: Env, m: Time, now: Time)
    ensures Keeps(e, Evolve(e, now, e.cur.(ds := Claim(e.remote))), m)
  {
    var e2 := Evolve(e, now, e.cur.(ds := Claim(e.remote)));
    Carry(e, e2, m, now);
    forall t: Time, u: Time | t <= u {
      Later(e2, m, t, u);
    }
    forall k, t, u | Trust(e, m, k, t) && t <= u
      ensures Trust(e2, m, k, u)
    {
      assert e.cur.ds == {} || e.cur.ds * {k} != {};
      Later(e2, m, t, u);
    }
    forall o, n, t, u | TrustMid(e, m, o, n, t) && t <= u
      ensures TrustMid(e2, m, o, n, u)
    {
      assert e.cur.ds * {o, n} == e.cur.ds;
      assert o !in e.cur.ds ==> e.cur.ds * {n} == e.cur.ds;
      Later(e2, m, t, u);
    }
    forall k, t, u | Settling(e, m, k, t) && t <= u
      ensures Settling(e2, m, k, u)
    {
      assert k in e.cur.ds * {k};
      Later(e2, m, t, u);
    }
    forall c, t, u | ChainBase(e, m, c, t) && t <= u
      ensures ChainBase(e2, m, c, u)
    {
      Later(e2, m, t, u);
    }
  }

  lemma RaisingKeeps(e: Env, e2: Env, m: Time)
    requires e2 == e.(cur := e.cur.(dnskeyTtl := e2.cur.dnskeyTtl, zoneTtl := e2.cur.zoneTtl, dsTtl := e2.cur.dsTtl))
    ensures Keeps(e, e2, m)
  {
    Carry(e, e2, m, 0);
    CarryTrust(e, e2, m, 0);
    forall t: Time, u: Time | t <= u {
      Later(e2, m, t, u);
    }
  }

  lemma RelabellingKeeps(e: Env, labels: map<int, KeyType>, m: Time)
    ensures Keeps(e, Relabelled(e, labels), m)
    ensures forall now :: EnvInv(e, now) ==> EnvInv(Relabelled(e, labels), now)
  {
    var e2 := Relabelled(e, labels);
    assert forall i <- e.keys :: Flag(e2.keys[i]) == Flag(e.keys[i]) && e2.keys[i].active == e.keys[i].active;
    assert Active(e2.keys) == Active(e.keys) && Published(e2.keys) == Published(e.keys);
    assert ActiveWith(e2.keys, ZONE_FLAGS) == ActiveWith(e.keys, ZONE_FLAGS);
    assert ActiveWith(e2.keys, SEP_FLAGS) == ActiveWith(e.keys, SEP_FLAGS);
    assert e2.keys.Keys == e.keys.Keys;
    Carry(e, e2, m, 0);
    CarryTrust(e, e2, m, 0);
    forall t: Time, u: Time | t <= u {
      Later(e2, m, t, u);
    }
  }
}
