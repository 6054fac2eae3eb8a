/** Iterative lookups: referrals followed level by level from two root servers, and an
    answer believed only when two servers of one level give it. */
module Quorum {
  import opened Model
  import opened Dns
  import opened Text
  import opened Material

  /** What the network answers during one lookup: the reply of each server at each level
      (None when the query fails) and the addresses a reply refers to. */
  datatype Net = Net(reply: (nat, string) -> Option<Message>, refer: (nat, string) -> seq<string>)

  const ROOTS: seq<string> := ["198.41.0.4:53", "[2001:503:ba3e::2:30]:53"]
  const LEVELS := 12

  // ---- lists without repetition ----------------------------------------------------------

  predicate Distinct(s: seq<string>) { forall i, j | 0 <= i < j < |s| :: s[i] != s[j] }

  function ToSet(s: seq<string>): set<string> { set x <- s }

  /** First occurrences, in order. */
  function Firsts(s: seq<string>): (r: seq<string>)
    ensures Distinct(r) && ToSet(r) == ToSet(s)
  {
    if s == [] then []
    else
      var before, last := Firsts(s[..|s| - 1]), s[|s| - 1];
      assert s == s[..|s| - 1] + [last];
      assert ToSet(s) == ToSet(s[..|s| - 1]) + {last};
      if last in before then before else before + [last]
  }

  method Unique(s: seq<string>) returns (r: seq<string>)
    ensures r == Firsts(s)
  {
    var seen := {};
    r := [];
    for i := 0 to |s|
      invariant r == Firsts(s[..i]) && seen == ToSet(r)
    {
      assert s[..i + 1][..i] == s[..i];
      if s[i] !in seen {
        seen := seen + {s[i]};
        r := r + [s[i]];
      }
    }
    assert s[..|s|] == s;
  }

  lemma RootsDistinct()
    ensures Distinct(ROOTS)
  {
    assert ROOTS[0][0] != ROOTS[1][0];
  }

  // ---- greatest TTL ------------------------------------------------------------------------

  function GreatestTtl(rrs: seq<Rr>, typ: int): (r: Ttl)
    ensures forall rr <- rrs :: TypeOf(rr) == typ ==> rr.ttl <= r
    ensures r == 0 || exists rr <- rrs :: TypeOf(rr) == typ && rr.ttl == r
  {
    if rrs == [] then 0
    else
      var rest, last := GreatestTtl(rrs[..|rrs| - 1], typ), rrs[|rrs| - 1];
      assert rrs == rrs[..|rrs| - 1] + [last];
      if TypeOf(last) == typ && last.ttl > rest then last.ttl else rest
  }

  method RrsetTtl(rrs: seq<Rr>, typ: int) returns (ttl: Ttl)
    ensures ttl == GreatestTtl(rrs, typ)
  {
    ttl := 0;
    for i := 0 to |rrs|
      invariant ttl == GreatestTtl(rrs[..i], typ)
    {
      assert rrs[..i + 1][..i] == rrs[..i];
      if TypeOf(rrs[i]) == typ && (ttl == 0 || rrs[i].ttl > ttl) {
        ttl := rrs[i].ttl;
      }
    }
    assert rrs[..|rrs|] == rrs;
  }

  // ---- one level ---------------------------------------------------------------------------

  /** How one server of a level counts. */
  datatype Report =
    | Broken                        // no usable answer
    | Agrees(ttl: Ttl)              // exactly what was asked to be confirmed
    | Objects                       // an answer that ends the lookup
    | Refers(to: seq<string>)

  datatype Verdict = Confirmed(ttl: Ttl) | Refused | Deeper(servers: seq<string>)

  function Agreeing(rs: seq<Report>): nat {
    if rs == [] then 0 else Agreeing(rs[..|rs| - 1]) + (if rs[|rs| - 1].Agrees? then 1 else 0)
  }

  function TopTtl(rs: seq<Report>): (r: Ttl)
    ensures forall i | 0 <= i < |rs| :: rs[i].Agrees? ==> rs[i].ttl <= r
    ensures r == 0 || exists i :: 0 <= i < |rs| && rs[i] == Agrees(r)
  {
    if rs == [] then 0
    else
      var rest, last := TopTtl(rs[..|rs| - 1]), rs[|rs| - 1];
      if last.Agrees? && last.ttl > rest then last.ttl else rest
  }

  function Referrals(rs: seq<Report>): seq<string> {
    if rs == [] then []
    else Referrals(rs[..|rs| - 1]) + (if rs[|rs| - 1].Refers? then rs[|rs| - 1].to else [])
  }

  predicate AnyBroken(rs: seq<Report>) { exists i :: 0 <= i < |rs| && rs[i].Broken? }

  predicate AnyObjects(rs: seq<Report>) { exists i :: 0 <= i < |rs| && rs[i].Objects? }

  /** The verdict of a level. A lookup for a TTL needs a positive one, and gives up on a
      broken server unless a quorum agrees; the others only give up when nothing is left. */
  function Judgement(rs: seq<Report>, needTtl: bool): Verdict {
    if AnyObjects(rs) then Refused
    else if Agreeing(rs) >= 2 && (needTtl ==> TopTtl(rs) > 0) then Confirmed(TopTtl(rs))
    else if Agreeing(rs) > 0 then Refused
    else if needTtl && AnyBroken(rs) then Refused
    else if Referrals(rs) == [] then Refused
    else Deeper(Referrals(rs))
  }

  /** A kind of lookup: how it reads one server's reply. */
  datatype Lookup = Lookup(read: (nat, string) -> Report, needTtl: bool)

  function Reports(q: Lookup, level: nat, servers: seq<string>): (r: seq<Report>)
    ensures |r| == |servers| && forall i | 0 <= i < |servers| :: r[i] == q.read(level, servers[i])
  {
    if servers == [] then [] else Reports(q, level, servers[..|servers| - 1]) + [q.read(level, servers[|servers| - 1])]
  }

  /** The servers asked at a level, as the levels before it refer to them; none once a level
      has settled the lookup. */
  function ServersAt(q: Lookup, level: nat): (r: seq<string>)
    ensures Distinct(r)
    decreases level, 0
  {
    RootsDistinct();
    if level == 0 then ROOTS
    else
      var v := VerdictAt(q, level - 1);
      if v.Deeper? then Firsts(v.servers) else []
  }

  function VerdictAt(q: Lookup, level: nat): Verdict
    decreases level, 1
  {
    Judgement(Reports(q, level, ServersAt(q, level)), q.needTtl)
  }

  /** The outcome of the lookup from a level on. */
  function Walk(q: Lookup, level: nat): Option<Ttl>
    decreases LEVELS - level, q
  {
    if level >= LEVELS then None
    else match VerdictAt(q, level)
      case Confirmed(ttl) => Some(ttl)
      case Refused => None
      case Deeper(_) => Walk(q, level + 1)
  }

  lemma ReportsAppend(q: Lookup, level: nat, servers: seq<string>, s: string)
    ensures Reports(q, level, servers + [s]) == Reports(q, level, servers) + [q.read(level, s)]
  {
    assert (servers + [s])[..|servers|] == servers;
  }

  lemma ReportsStep(q: Lookup, level: nat, servers: seq<string>, i: nat)
    requires i < |servers|
    ensures Reports(q, level, servers[..i + 1]) == Reports(q, level, servers[..i]) + [q.read(level, servers[i])]
  {
    assert servers[..i + 1] == servers[..i] + [servers[i]];
    ReportsAppend(q, level, servers[..i], servers[i]);
  }

  lemma FoldAppend(rs: seq<Report>, r: Report)
    ensures Agreeing(rs + [r]) == Agreeing(rs) + (if r.Agrees? then 1 else 0)
    ensures TopTtl(rs + [r]) == if r.Agrees? && r.ttl > TopTtl(rs) then r.ttl else TopTtl(rs)
    ensures Referrals(rs + [r]) == Referrals(rs) + (if r.Refers? then r.to else [])
    ensures AnyBroken(rs + [r]) <==> AnyBroken(rs) || r.Broken?
    ensures AnyObjects(rs + [r]) <==> AnyObjects(rs) || r.Objects?
  {
    var longer := rs + [r];
    assert longer[..|rs|] == rs && longer[|rs|] == r;
    assert forall i | 0 <= i < |rs| :: longer[i] == rs[i];
  }

  lemma ObjectionStands(q: Lookup, level: nat, servers: seq<string>, i: nat)
    requires i < |servers| && q.read(level, servers[i]).Objects?
    ensures AnyObjects(Reports(q, level, servers))
  {
    assert Reports(q, level, servers)[i].Objects?;
  }

  /** One level, server by server; None when a server objects, which ends the lookup. */
  method Collect(q: Lookup, level: nat, servers: seq<string>)
    returns (objected: bool, agreed: nat, top: Ttl, broken: bool, referrals: seq<string>)
    ensures var rs := Reports(q, level, servers);
            && objected == AnyObjects(rs)
            && (!objected ==> agreed == Agreeing(rs) && top == TopTtl(rs) && broken == AnyBroken(rs) && referrals == Referrals(rs))
  {
    objected, agreed, top, broken, referrals := false, 0, 0, false, [];
    ghost var rs: seq<Report> := [];
    for i := 0 to |servers|
      invariant rs == Reports(q, level, servers[..i]) && !AnyObjects(rs)
      invariant agreed == Agreeing(rs) && top == TopTtl(rs)
      invariant broken == AnyBroken(rs) && referrals == Referrals(rs)
    {
      var report := q.read(level, servers[i]);
      if report.Objects? {
        ObjectionStands(q, level, servers, i);
        return true, agreed, top, broken, referrals;
      }
      ReportsStep(q, level, servers, i);
      FoldAppend(rs, report);
      rs := rs + [report];
      match report
      case Broken => broken := true;
      case Agrees(ttl) =>
        agreed := agreed + 1;
        if ttl > top { top := ttl; }
      case Refers(to) => referrals := referrals + to;
    }
    assert servers[..|servers|] == servers;
    objected := false;
  }

  method AskLevel(q: Lookup, level: nat, servers: seq<string>) returns (v: Verdict)
    ensures v == Judgement(Reports(q, level, servers), q.needTtl)
  {
    var objected, agreed, top, broken, referrals := Collect(q, level, servers);
    if objected {
      return Refused;
    }
    if agreed >= 2 && (!q.needTtl || top > 0) {
      return Confirmed(top);
    }
    if agreed > 0 || (q.needTtl && broken) {
      return Refused;
    }
    return if referrals == [] then Refused else Deeper(referrals);
  }

  lemma NextServers(q: Lookup, level: nat)
    requires VerdictAt(q, level).Deeper?
    ensures ServersAt(q, level + 1) == Firsts(VerdictAt(q, level).servers)
  {}

  /** The walk: at most twelve levels. Referral addresses are asked once each, so there are
      some exactly when there are referrals. */
  method LookUp(q: Lookup) returns (r: Option<Ttl>)
    ensures r == Walk(q, 0)
  {
    var servers := ROOTS;
    for level := 0 to LEVELS
      invariant Walk(q, 0) == Walk(q, level) && servers == ServersAt(q, level)
    {
      var v := AskLevel(q, level, servers);
      assert v == VerdictAt(q, level);
      match v
      case Confirmed(ttl) => return Some(ttl);
      case Refused => return None;
      case Deeper(referrals) =>
        NextServers(q, level);
        servers := Unique(referrals);
    }
    return None;
  }

  // ---- what a confirmation means -----------------------------------------------------------

  function AgreeingServers(q: Lookup, level: nat, servers: seq<string>): set<string> {
    set s <- servers | q.read(level, s).Agrees?
  }

  lemma AgreeingAppend(q: Lookup, level: nat, rest: seq<string>, last: string)
    requires last !in rest
    ensures |AgreeingServers(q, level, rest + [last])|
         == |AgreeingServers(q, level, rest)| + (if q.read(level, last).Agrees? then 1 else 0)
  {
    assert AgreeingServers(q, level, rest + [last])
        == AgreeingServers(q, level, rest) + (if q.read(level, last).Agrees? then {last} else {});
  }

  /** Without repetition, every agreement is another server. */
  lemma {:induction false} AgreementsAreServers(q: Lookup, level: nat, servers: seq<string>)
    requires Distinct(servers)
    ensures |AgreeingServers(q, level, servers)| == Agreeing(Reports(q, level, servers))
  {
    if servers != [] {
      var rest, last := servers[..|servers| - 1], servers[|servers| - 1];
      assert servers == rest + [last];
      AgreementsAreServers(q, level, rest);
      AgreeingAppend(q, level, rest, last);
      ReportsAppend(q, level, rest, last);
      FoldAppend(Reports(q, level, rest), q.read(level, last));
    }
  }

  /** No server asked before `level` objected. */
  ghost predicate Reached(q: Lookup, level: nat) {
    forall l: nat, s: string | l < level && s in ServersAt(q, l) :: !q.read(l, s).Objects?
  }

  /** `ttl` is the greatest the servers agree on, zero if none is. */
  ghost predicate Greatest(q: Lookup, level: nat, servers: seq<string>, ttl: Ttl) {
    && (forall s <- servers | q.read(level, s).Agrees? :: q.read(level, s).ttl <= ttl)
    && (ttl == 0 || exists s <- servers :: q.read(level, s) == Agrees(ttl))
  }

  /** At `level` at least two servers agree, none asked until then objects, and the TTL is the
      greatest that was agreed on. */
  ghost predicate Confirms(q: Lookup, level: nat, ttl: Ttl) {
    && level < LEVELS && Reached(q, level + 1)
    && |AgreeingServers(q, level, ServersAt(q, level))| >= 2
    && Greatest(q, level, ServersAt(q, level), ttl)
    && (q.needTtl ==> ttl > 0)
  }

  lemma NoObjection(q: Lookup, level: nat, servers: seq<string>, s: string)
    requires s in servers && !AnyObjects(Reports(q, level, servers))
    ensures !q.read(level, s).Objects?
  {
    var i :| 0 <= i < |servers| && servers[i] == s;
    assert Reports(q, level, servers)[i] == q.read(level, s);
  }

  lemma ReachedNext(q: Lookup, level: nat)
    requires Reached(q, level) && !AnyObjects(Reports(q, level, ServersAt(q, level)))
    ensures Reached(q, level + 1)
  {
    forall l: nat, s: string | l < level + 1 && s in ServersAt(q, l)
      ensures !q.read(l, s).Objects?
    {
      if l == level {
        NoObjection(q, level, ServersAt(q, level), s);
      }
    }
  }

  lemma TopIsGreatest(q: Lookup, level: nat, servers: seq<string>)
    ensures Greatest(q, level, servers, TopTtl(Reports(q, level, servers)))
  {
    var rs := Reports(q, level, servers);
    forall s | s in servers && q.read(level, s).Agrees?
      ensures q.read(level, s).ttl <= TopTtl(rs)
    {
      var i :| 0 <= i < |servers| && servers[i] == s;
      assert rs[i] == q.read(level, s);
    }
    if TopTtl(rs) != 0 {
      var i :| 0 <= i < |rs| && rs[i] == Agrees(TopTtl(rs));
      assert servers[i] in servers && q.read(level, servers[i]) == Agrees(TopTtl(rs));
    }
  }

  lemma LevelConfirms(q: Lookup, level: nat, ttl: Ttl)
    requires level < LEVELS && Reached(q, level) && VerdictAt(q, level) == Confirmed(ttl)
    ensures Confirms(q, level, ttl)
  {
    var servers := ServersAt(q, level);
    ReachedNext(q, level);
    AgreementsAreServers(q, level, servers);
    TopIsGreatest(q, level, servers);
  }

  lemma {:induction false} WalkConfirms(q: Lookup, level: nat, ttl: Ttl)
    requires level <= LEVELS && Reached(q, level) && Walk(q, level) == Some(ttl)
    ensures exists at: nat :: Confirms(q, at, ttl)
    decreases LEVELS - level
  {
    if VerdictAt(q, level).Confirmed? {
      LevelConfirms(q, level, ttl);
    } else {
      ReachedNext(q, level);
      WalkConfirms(q, level + 1, ttl);
    }
  }

  /** Any lookup that succeeds was confirmed by two distinct servers of one level. */
  lemma QuorumConfirms(q: Lookup, ttl: Ttl) returns (at: nat)
    requires Walk(q, 0) == Some(ttl)
    ensures Confirms(q, at, ttl)
  {
    WalkConfirms(q, 0, ttl);
    at :| Confirms(q, at, ttl);
  }
}
