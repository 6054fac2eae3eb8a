/** The four kinds of evidence collected over several paths: a DS RRset at the parent, its
    absence, the delegation, and a DNSKEY RRset. */
module Evidences {
  import opened Model
  import opened Dns
  import opened Material
  import opened Denial
  import opened Quorum

  // ---- DS at the parent --------------------------------------------------------------------

  function ReadDs(net: Net, name: Name, expected: seq<Ds>, level: nat, server: string): Report {
    var r := net.reply(level, server);
    if r.None? then Broken
    else if HasType(r.value.answer, TYPE_DS) then
      if ExactDsAnswer(r.value, expected, name, true) then Agrees(GreatestTtl(r.value.answer, TYPE_DS)) else Broken
    else if net.refer(level, server) != [] then Refers(net.refer(level, server))
    else if HasType(r.value.ns, TYPE_SOA) then Objects
    else Refers([])
  }

  function DsLookup(net: Net, name: Name, expected: seq<Ds>): Lookup {
    Lookup((level: nat, server: string) => ReadDs(net, name, expected, level, server), true)
  }

  method AuthoritativeDsEvidence(net: Net, name: Name, expected: seq<Ds>) returns (ttl: Option<Ttl>)
    ensures ttl == Walk(DsLookup(net, name, expected), 0)
  {
    ttl := LookUp(DsLookup(net, name, expected));
  }

  predicate ExactDsServer(net: Net, level: nat, server: string, name: Name, expected: seq<Ds>) {
    var r := net.reply(level, server);
    r.Some? && HasType(r.value.answer, TYPE_DS) && ExactDsAnswer(r.value, expected, name, true)
  }

  /** DS evidence: two servers of one level served exactly the expected DS RRset with
      authority, and the TTL returned is the greatest any of them served. */
  lemma DsEvidenceMeans(net: Net, name: Name, expected: seq<Ds>, ttl: Ttl) returns (at: nat, a: string, b: string)
    requires Walk(DsLookup(net, name, expected), 0) == Some(ttl)
    ensures at < LEVELS && a != b && ttl > 0
    ensures var servers := ServersAt(DsLookup(net, name, expected), at);
            && a in servers && b in servers
            && ExactDsServer(net, at, a, name, expected) && ExactDsServer(net, at, b, name, expected)
            && (forall s <- servers | ExactDsServer(net, at, s, name, expected) ::
                  GreatestTtl(net.reply(at, s).value.answer, TYPE_DS) <= ttl)
            && (exists s <- servers :: ExactDsServer(net, at, s, name, expected)
                                       && GreatestTtl(net.reply(at, s).value.answer, TYPE_DS) == ttl)
  {
    var q := DsLookup(net, name, expected);
    at := QuorumConfirms(q, ttl);
    a, b := TwoOf(AgreeingServers(q, at, ServersAt(q, at)));
    ReadsDs(net, name, expected, at, a);
    ReadsDs(net, name, expected, at, b);
    forall s: string
      ensures q.read(at, s).Agrees? <==> ExactDsServer(net, at, s, name, expected)
      ensures q.read(at, s).Agrees? ==> q.read(at, s).ttl == GreatestTtl(net.reply(at, s).value.answer, TYPE_DS)
    {
      ReadsDs(net, name, expected, at, s);
    }
    var s :| s in ServersAt(q, at) && q.read(at, s) == Agrees(ttl);
    assert ExactDsServer(net, at, s, name, expected);
  }

  lemma ReadsDs(net: Net, name: Name, expected: seq<Ds>, level: nat, s: string)
    ensures var report := DsLookup(net, name, expected).read(level, s);
            && (report.Agrees? <==> ExactDsServer(net, level, s, name, expected))
            && (report.Agrees? ==> report.ttl == GreatestTtl(net.reply(level, s).value.answer, TYPE_DS))
  {}

  lemma TwoOf(s: set<string>) returns (a: string, b: string)
    requires |s| >= 2
    ensures a in s && b in s && a != b
  {
    a :| a in s;
    var rest := s - {a};
    assert |rest| >= 1;
    b :| b in rest;
  }

  // ---- DS absence ----------------------------------------------------------------------------

  /** The owner of the first SOA record of a section. */
  function SoaOwner(ns: seq<Rr>): Option<Name> {
    if ns == [] then None
    else if ns[0].data.SoaData? then Some(ns[0].name)
    else SoaOwner(ns[1..])
  }

  /** The parent's DNSKEY RRset as a validating resolver authenticates it, by zone; None when
      the query fails, is not authenticated, is empty or has a foreign owner. */
  type ParentKeys = Name -> Option<seq<KeyData>>

  predicate NoDsShown(r: Message, name: Name, keys: ParentKeys, requireAA: bool, c: Crypto) {
    && (requireAA ==> r.aa) && !HasType(r.answer, TYPE_DS)
    && var parent := SoaOwner(r.ns);
    && parent.Some? && IsSubDomain(parent.value, name) && parent.value != name
    && keys(parent.value).Some?
    && Accepts(r.ns, name, parent.value, keys(parent.value).value, c)
  }

  method FindSoa(ns: seq<Rr>) returns (r: Option<Name>)
    ensures r == SoaOwner(ns)
  {
    for i := 0 to |ns|
      invariant SoaOwner(ns) == SoaOwner(ns[i..])
    {
      if ns[i].data.SoaData? {
        return Some(ns[i].name);
      }
    }
    return None;
  }

  method VerifyNoDs(r: Message, name: Name, keys: ParentKeys, requireAA: bool, c: Crypto) returns (ok: bool)
    ensures ok == NoDsShown(r, name, keys, requireAA, c)
  {
    var present := FindType(r.answer, TYPE_DS);
    if (requireAA && !r.aa) || present {
      return false;
    }
    var parent := FindSoa(r.ns);
    if parent.None? || !IsSubDomain(parent.value, name) || parent.value == name || keys(parent.value).None? {
      return false;
    }
    ok := VerifyNoDsProof(r.ns, name, parent.value, keys(parent.value).value, c);
  }

  function ReadNoDs(net: Net, name: Name, keys: ParentKeys, c: Crypto, level: nat, server: string): Report {
    var r := net.reply(level, server);
    if r.None? then Broken
    else if HasType(r.value.answer, TYPE_DS) then Objects
    else if HasType(r.value.ns, TYPE_SOA) then (if NoDsShown(r.value, name, keys, true, c) then Agrees(0) else Broken)
    else Refers(net.refer(level, server))
  }

  function NoDsLookup(net: Net, name: Name, keys: ParentKeys, c: Crypto): Lookup {
    Lookup((level: nat, server: string) => ReadNoDs(net, name, keys, c, level, server), false)
  }

  /** First every validating resolver, then the servers of the parent. `keysOf` is each
      resolver's view of parent keys. */
  method NoDsEvidence(net: Net, name: Name, resolvers: seq<string>, recursive: string -> Option<Message>,
                      keysOf: string -> ParentKeys, c: Crypto) returns (ok: bool)
    ensures ok ==> |resolvers| >= 2 && Walk(NoDsLookup(net, name, keysOf(resolvers[0]), c), 0).Some?
    ensures ok ==> forall s <- resolvers :: recursive(s).Some? && NoDsShown(recursive(s).value, name, keysOf(s), false, c)
    ensures !ok ==> || |resolvers| < 2 || Walk(NoDsLookup(net, name, keysOf(resolvers[0]), c), 0).None?
                    || exists s <- resolvers :: recursive(s).Some? ==> !NoDsShown(recursive(s).value, name, keysOf(s), false, c)
  {
    if |resolvers| < 2 {
      return false;
    }
    for i := 0 to |resolvers|
      invariant forall s <- resolvers[..i] :: recursive(s).Some? && NoDsShown(recursive(s).value, name, keysOf(s), false, c)
    {
      var s := resolvers[i];
      assert s in resolvers;
      if recursive(s).None? {
        return false;
      }
      var shown := VerifyNoDs(recursive(s).value, name, keysOf(s), false, c);
      if !shown {
        return false;
      }
    }
    assert resolvers[..|resolvers|] == resolvers;
    var walked := LookUp(NoDsLookup(net, name, keysOf(resolvers[0]), c));
    ok := walked.Some?;
  }

  /** Absence evidence: two servers of one level proved it with signed records, no server
      asked on the way reported a DS, and if those records are true there is none. */
  lemma NoDsEvidenceMeans(net: Net, name: Name, keys: ParentKeys, c: Crypto, ttl: Ttl)
    returns (at: nat, a: string, b: string)
    requires Walk(NoDsLookup(net, name, keys, c), 0) == Some(ttl)
    ensures var q := NoDsLookup(net, name, keys, c);
            && at < LEVELS && a != b && a in ServersAt(q, at) && b in ServersAt(q, at)
            && (forall s <- {a, b} :: net.reply(at, s).Some? && NoDsShown(net.reply(at, s).value, name, keys, true, c))
            && (forall l: nat, s: string | l <= at && s in ServersAt(q, l) && net.reply(l, s).Some? ::
                  !HasType(net.reply(l, s).value.answer, TYPE_DS))
  {
    var q := NoDsLookup(net, name, keys, c);
    at := QuorumConfirms(q, ttl);
    a, b := TwoOf(AgreeingServers(q, at, ServersAt(q, at)));
    forall l: nat, s: string | l <= at && s in ServersAt(q, l) && net.reply(l, s).Some?
      ensures !HasType(net.reply(l, s).value.answer, TYPE_DS)
    {
      assert !q.read(l, s).Objects?;
    }
  }

  lemma ShownMeansNoDs(z: ParentZone, r: Message, name: Name, keys: ParentKeys, requireAA: bool, c: Crypto)
    requires NoDsShown(r, name, keys, requireAA, c) && SoaOwner(r.ns) == Some(z.apex)
    requires TrueZone(z, r.ns, keys(z.apex).value, c)
    ensures !HasDs(z, name)
  {
    AcceptedMeansNoDs(z, r.ns, name, keys(z.apex).value, c);
  }

  // ---- delegation ------------------------------------------------------------------------------

  /** The name servers a response gives for exactly this name. */
  function DelegatedNs(r: Message, name: Name): set<Name> {
    set rr <- r.answer + r.ns | rr.data.NsData? && rr.name == name :: rr.data.target
  }

  function ReadDelegation(net: Net, name: Name, want: set<Name>, level: nat, server: string): Report {
    var r := net.reply(level, server);
    if r.None? then Broken
    else if DelegatedNs(r.value, name) != {} then (if DelegatedNs(r.value, name) == want then Agrees(0) else Objects)
    else Refers(net.refer(level, server))
  }

  function DelegationLookup(net: Net, name: Name, want: set<Name>): Lookup {
    Lookup((level: nat, server: string) => ReadDelegation(net, name, want, level, server), false)
  }

  method DelegationEvidence(net: Net, name: Name, want: set<Name>) returns (ok: bool)
    ensures ok <==> |want| >= 2 && Walk(DelegationLookup(net, name, want), 0).Some?
  {
    if |want| < 2 {
      return false;
    }
    var r := LookUp(DelegationLookup(net, name, want));
    ok := r.Some?;
  }

  /** Delegation evidence: two servers of one level gave exactly the expected set, and no
      server asked on the way gave another. */
  lemma DelegationEvidenceMeans(net: Net, name: Name, want: set<Name>, ttl: Ttl) returns (at: nat, a: string, b: string)
    requires Walk(DelegationLookup(net, name, want), 0) == Some(ttl)
    ensures var q := DelegationLookup(net, name, want);
            && at < LEVELS && a != b && a in ServersAt(q, at) && b in ServersAt(q, at)
            && (forall s <- {a, b} :: net.reply(at, s).Some? && DelegatedNs(net.reply(at, s).value, name) == want)
            && (forall l: nat, s: string | l <= at && s in ServersAt(q, l) && net.reply(l, s).Some? ::
                  DelegatedNs(net.reply(l, s).value, name) in {{}, want})
  {
    var q := DelegationLookup(net, name, want);
    at := QuorumConfirms(q, ttl);
    a, b := TwoOf(AgreeingServers(q, at, ServersAt(q, at)));
    forall l: nat, s: string | l <= at && s in ServersAt(q, l) && net.reply(l, s).Some?
      ensures DelegatedNs(net.reply(l, s).value, name) in {{}, want}
    {
      assert !q.read(l, s).Objects?;
    }
  }

  // ---- DNSKEY ------------------------------------------------------------------------------------

  predicate ShowsKeys(r: Option<Message>, want: seq<KeyData>, requireAD: bool, requireAA: bool, owner: Name) {
    && r.Some? && (requireAD ==> r.value.ad) && (requireAA ==> r.value.aa)
    && AllOwned(r.value.answer, TYPE_DNSKEY, owner) && multiset(Dnskeys(r.value.answer)) == multiset(want)
  }

  function TtlOf(r: Option<Message>): Ttl { if r.Some? then GreatestTtl(r.value.answer, TYPE_DNSKEY) else 0 }

  /** The authoritative servers in turn; the greatest TTL so far is carried along. */
  method AskAuthoritative(paths: seq<Option<Message>>, first: Ttl, want: seq<KeyData>, owner: Name)
    returns (ok: bool, top: Ttl)
    ensures ok <==> forall r <- paths :: ShowsKeys(r, want, false, true, owner)
    ensures ok ==> first <= top && (forall r <- paths :: TtlOf(r) <= top) && (top == first || exists r <- paths :: TtlOf(r) == top)
  {
    top := first;
    for i := 0 to |paths|
      invariant first <= top && (top == first || exists j :: 0 <= j < i && TtlOf(paths[j]) == top)
      invariant forall j | 0 <= j < i :: ShowsKeys(paths[j], want, false, true, owner) && TtlOf(paths[j]) <= top
    {
      var r := paths[i];
      assert r in paths;
      if r.None? {
        return false, top;
      }
      var shown := VerifyDnskeySet(r.value, want, false, true, owner);
      if !shown {
        return false, top;
      }
      var observed := RrsetTtl(r.value.answer, TYPE_DNSKEY);
      if observed > top {
        top := observed;
      }
    }
    ok := true;
  }

  method AskResolvers(paths: seq<Option<Message>>, want: seq<KeyData>, owner: Name) returns (ok: bool)
    ensures ok <==> forall r <- paths :: ShowsKeys(r, want, true, false, owner)
  {
    for i := 0 to |paths|
      invariant forall j | 0 <= j < i :: ShowsKeys(paths[j], want, true, false, owner)
    {
      var r := paths[i];
      assert r in paths;
      if r.None? {
        return false;
      }
      var shown := VerifyDnskeySet(r.value, want, true, false, owner);
      if !shown {
        return false;
      }
    }
    ok := true;
  }

  /** Every path shows exactly the wanted set, and the TTL is the greatest an authoritative
      one served; it fails exactly when a path does not, or all those TTLs are zero. */
  method DnskeyEvidence(local: Option<Message>, authoritative: seq<Option<Message>>, recursive: seq<Option<Message>>,
                        includeResolvers: bool, want: seq<KeyData>, owner: Name) returns (ttl: Option<Ttl>)
    ensures ttl.Some? <==>
              && ShowsKeys(local, want, false, true, owner)
              && (forall r <- authoritative :: ShowsKeys(r, want, false, true, owner))
              && (includeResolvers ==> forall r <- recursive :: ShowsKeys(r, want, true, false, owner))
              && (TtlOf(local) > 0 || exists r <- authoritative :: TtlOf(r) > 0)
    ensures ttl.Some? ==> forall r <- [local] + authoritative :: TtlOf(r) <= ttl.value
    ensures ttl.Some? ==> exists r <- [local] + authoritative :: TtlOf(r) == ttl.value
  {
    if local.None? {
      return None;
    }
    var shown := VerifyDnskeySet(local.value, want, false, true, owner);
    if !shown {
      return None;
    }
    var first := RrsetTtl(local.value.answer, TYPE_DNSKEY);
    var ok, top := AskAuthoritative(authoritative, first, want, owner);
    if !ok {
      return None;
    }
    if includeResolvers {
      ok := AskResolvers(recursive, want, owner);
      if !ok {
        return None;
      }
    }
    assert local in [local] + authoritative;
    assert forall r <- authoritative :: r in [local] + authoritative;
    return if top == 0 then None else Some(top);
  }
}
