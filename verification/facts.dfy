/** What may still sit in resolver caches, as deadlines: `PubBy(e, m, k, t)` says that by
    time t every cached DNSKEY RRset contains key k. Facts of this form survive the clock,
    retries and every later change that keeps k published. */
module Facts {
  import opened Model
  import opened World

  /** Every DNSKEY RRset without k is replaced and gone from caches by t. */
  ghost predicate PubBy(e: Env, m: Time, k: int, t: Time) {
    k in e.cur.pub && forall v <- e.past :: k !in v.pub ==> v.until + v.dnskeyTtl + m <= t
  }

  /** The same for DNSKEY RRsets not signed by k. */
  ghost predicate SigBy(e: Env, m: Time, k: int, t: Time) {
    k in e.cur.ks && forall v <- e.past :: k !in v.ks ==> v.until + v.dnskeyTtl + m <= t
  }

  /** The same for zone data signed by no key of `s`. */
  ghost predicate ZsBy(e: Env, m: Time, s: set<int>, t: Time) {
    e.cur.zs * s != {} && forall v <- e.past :: v.zs * s == {} ==> v.until + v.zoneTtl + m <= t
  }

  /** The same for DS RRsets that exist and name no key of `s`. */
  ghost predicate DsBy(e: Env, m: Time, s: set<int>, t: Time) {
    forall v <- e.past :: v.ds != {} && v.ds * s == {} ==> v.until + v.dsTtl + m <= t
  }

  /** Key k is in, and signs, every DNSKEY RRset a cache can hold at t. */
  ghost predicate ChainOn(e: Env, m: Time, k: int, t: Time) { PubBy(e, m, k, t) && SigBy(e, m, k, t) }

  /** All keys of `s` are in every cached DNSKEY RRset, and one of them signs each cached zone RRset. */
  ghost predicate SignBase(e: Env, m: Time, s: set<int>, t: Time) {
    (forall k <- s :: PubBy(e, m, k, t)) && ZsBy(e, m, s, t)
  }

  /** Key ids the registrar holds or may still apply. */
  function Claims(e: Env): set<int> { Claim(e.remote) + e.pending }

  /** No cache and no pending change gives the zone a DS RRset. */
  ghost predicate Bare(e: Env, m: Time, t: Time) { e.cur.ds == {} && Claims(e) == {} && DsBy(e, m, {}, t) }

  /** The parent trusts key k alone, or nothing yet. */
  ghost predicate Trust(e: Env, m: Time, k: int, t: Time) {
    && e.pending == {} && e.cur.ds <= Claim(e.remote) <= {k} && DsBy(e, m, {k}, t)
    && (ChainOn(e, m, k, t) || Bare(e, m, t))
  }

  /** The parent may trust old key o or new key n; n is ready for it. */
  ghost predicate TrustMid(e: Env, m: Time, o: int, n: int, t: Time) {
    && ChainOn(e, m, n, t)
    && e.cur.ds <= {o, n} && Claim(e.remote) <= {o, n} && e.pending <= {n} && DsBy(e, m, {o, n}, t)
    && (n in Claim(e.remote) ==> Claim(e.remote) == {n} && e.pending == {})
    && (n in e.cur.ds ==> Claim(e.remote) == {n} && e.cur.ds == {n})
    && (ChainOn(e, m, o, t) || (o !in e.cur.ds && o !in Claim(e.remote) && DsBy(e, m, {n}, t)))
  }

  /** The parent serves n alone; other DS RRsets leave the caches by t. */
  ghost predicate Settling(e: Env, m: Time, n: int, t: Time) {
    e.cur.ds == {n} && Claim(e.remote) == {n} && e.pending == {} && DsBy(e, m, {n}, t)
  }

  /** What PowerDNS and the bookkeeping of epochs guarantee on their own. */
  ghost predicate EnvInv(e: Env, now: Time) {
    && (forall i <- e.keys :: e.keys[i].id == i && i > 0 && Labelled(e.keys[i]))
    && e.keys.Keys <= e.used
    && e.cur.pub == Published(e.keys)
    && SignsZone(e.keys, e.cur.zs) && SignsDnskey(e.keys, e.cur.ks)
    && forall v <- e.past ::
         v.until <= now && v.dnskeyTtl <= e.cur.dnskeyTtl && v.zoneTtl <= e.cur.zoneTtl && v.dsTtl <= e.cur.dsTtl
  }

  // ---- deadlines established by an observation --------------------------------------

  /** Seeing k published now bounds every cache by the TTL read, from now. */
  lemma SeenPublished(e: Env, m: Time, k: int, now: Time, ttl: int, t: Time)
    requires EnvInv(e, now) && k in e.cur.pub && ttl >= e.cur.dnskeyTtl && t >= now + ttl + m
    ensures PubBy(e, m, k, t)
    ensures k in e.cur.ks ==> SigBy(e, m, k, t)
  {}

  lemma SeenSigning(e: Env, m: Time, k: int, now: Time, ttl: int, t: Time)
    requires EnvInv(e, now) && k in e.cur.zs && ttl >= e.cur.zoneTtl && t >= now + ttl + m
    ensures ZsBy(e, m, {k}, t)
  {
    assert k in e.cur.zs * {k};
  }

  lemma SeenDs(e: Env, m: Time, k: int, now: Time, ttl: int, t: Time)
    requires EnvInv(e, now) && ttl >= e.cur.dsTtl && t >= now + ttl + m
    ensures DsBy(e, m, {k}, t)
  {}

  // ---- time -------------------------------------------------------------------------

  lemma Later(e: Env, m: Time, t: Time, u: Time)
    requires t <= u
    ensures forall k :: PubBy(e, m, k, t) ==> PubBy(e, m, k, u)
    ensures forall k :: SigBy(e, m, k, t) ==> SigBy(e, m, k, u)
    ensures forall k :: ChainOn(e, m, k, t) ==> ChainOn(e, m, k, u)
    ensures forall s :: ZsBy(e, m, s, t) ==> ZsBy(e, m, s, u)
    ensures forall s :: DsBy(e, m, s, t) ==> DsBy(e, m, s, u)
    ensures forall s :: SignBase(e, m, s, t) ==> SignBase(e, m, s, u)
    ensures Bare(e, m, t) ==> Bare(e, m, u)
    ensures forall k :: Trust(e, m, k, t) ==> Trust(e, m, k, u)
    ensures forall o, n :: TrustMid(e, m, o, n, t) ==> TrustMid(e, m, o, n, u)
    ensures forall k :: Settling(e, m, k, t) ==> Settling(e, m, k, u)
  {}

  /** A key every cache has may join the base. */
  lemma WiderBase(e: Env, m: Time, o: int, s: int, t: Time)
    requires SignBase(e, m, {o}, t) && PubBy(e, m, s, t)
    ensures SignBase(e, m, {o, s}, t)
  {
    assert o in e.cur.zs by {
      assert e.cur.zs * {o} != {};
    }
    assert o in e.cur.zs * {o, s};
    forall v | v in e.past && v.zs * {o, s} == {}
      ensures v.zs * {o} == {}
    {
      assert v.zs * {o} <= v.zs * {o, s};
    }
  }

  // ---- change -----------------------------------------------------------------------

  /** e2 differs from e in what is outside the epochs, in larger TTL bounds, or by having
      closed the current epoch. */
  ghost predicate Follows(e: Env, e2: Env, now: Time) {
    || (e2.past == e.past && e2.cur == e.cur.(dnskeyTtl := e2.cur.dnskeyTtl, zoneTtl := e2.cur.zoneTtl, dsTtl := e2.cur.dsTtl))
    || e2.past == e.past + [e.cur.(until := now)]
  }

  /** A fact survives as long as the new content satisfies it too. */
  lemma Carry(e: Env, e2: Env, m: Time, now: Time)
    requires Follows(e, e2, now)
    ensures forall k, t :: PubBy(e, m, k, t) && k in e2.cur.pub ==> PubBy(e2, m, k, t)
    ensures forall k, t :: SigBy(e, m, k, t) && k in e2.cur.ks ==> SigBy(e2, m, k, t)
    ensures forall k, t :: ChainOn(e, m, k, t) && k in e2.cur.pub && k in e2.cur.ks ==> ChainOn(e2, m, k, t)
    ensures forall s, t :: ZsBy(e, m, s, t) && e2.cur.zs * s != {} ==> ZsBy(e2, m, s, t)
    ensures forall s, t :: DsBy(e, m, s, t) && (e.cur.ds == {} || e.cur.ds * s != {}) ==> DsBy(e2, m, s, t)
    ensures forall s, t :: SignBase(e, m, s, t) && s <= e2.cur.pub && e2.cur.zs * s != {} ==> SignBase(e2, m, s, t)
  {
    if e2.past == e.past + [e.cur.(until := now)] {
      assert forall v :: v in e2.past <==> v in e.past || v == e.cur.(until := now);
    }
  }

  /** Trust survives whatever leaves the parent, the registrar and its keys alone. */
  lemma CarryTrust(e: Env, e2: Env, m: Time, now: Time)
    requires Follows(e, e2, now)
    requires e2.remote == e.remote && e2.pending == e.pending && e2.cur.ds == e.cur.ds
    ensures Bare(e, m, now) ==> Bare(e2, m, now)
    ensures forall k, t :: Trust(e, m, k, t) && k in e2.cur.pub && k in e2.cur.ks ==> Trust(e2, m, k, t)
    ensures forall o, n, t :: TrustMid(e, m, o, n, t) && {o, n} <= e2.cur.pub && {o, n} <= e2.cur.ks ==> TrustMid(e2, m, o, n, t)
    ensures forall k, t :: Settling(e, m, k, t) ==> Settling(e2, m, k, t)
  {
    Carry(e, e2, m, now);
  }
}
