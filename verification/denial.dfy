/** The signed proof that a parent zone holds no DS RRset at a delegation: by the record of
    the name itself, or by its closest encloser and an Opt-Out span over the next name. */
module Denial {
  import opened Model
  import opened Dns

  /** Hashing, signature checking and the clock, as far as this proof needs them. */
  datatype Crypto = Crypto(
    tag: KeyData -> int,                       // key tag of a DNSKEY
    verifies: (Rr, KeyData, Rr) -> bool,       // signature, key, covered record
    current: Rr -> bool,                       // the signature's validity period includes now
    matches: (Rr, Name) -> bool,               // NSEC3 owner is the hash of the name
    covers: (Rr, Name) -> bool)                // the hash of the name lies in the NSEC3 span

  predicate DelegationWithoutDs(types: seq<int>) {
    TYPE_NS in types && TYPE_DS !in types && TYPE_SOA !in types && TYPE_CNAME !in types
  }

  // ---- signatures ------------------------------------------------------------------------

  predicate Covers(sig: Rr, rr: Rr, parent: Name, c: Crypto) {
    && sig.data.RrsigData? && sig.data.covered == TypeOf(rr) && sig.name == rr.name
    && sig.data.signer == parent && c.current(sig)
  }

  predicate SignedBy(sig: Rr, rr: Rr, key: KeyData, c: Crypto) {
    sig.data.RrsigData? && c.tag(key) == sig.data.keyTag && key.algorithm == sig.data.algorithm && c.verifies(sig, key, rr)
  }

  predicate Signed(ns: seq<Rr>, rr: Rr, parent: Name, keys: seq<KeyData>, c: Crypto) {
    && rr.rrClass == INET && IsSubDomain(parent, rr.name)
    && exists sig <- ns, key <- keys :: Covers(sig, rr, parent, c) && SignedBy(sig, rr, key, c)
  }

  method ValidDenialSignature(ns: seq<Rr>, rr: Rr, parent: Name, keys: seq<KeyData>, c: Crypto) returns (ok: bool)
    ensures ok == Signed(ns, rr, parent, keys, c)
  {
    if !SameOwnerClass(rr, rr.name) || !IsSubDomain(parent, rr.name) {
      return false;
    }
    for i := 0 to |ns|
      invariant forall sig <- ns[..i], key <- keys :: !(Covers(sig, rr, parent, c) && SignedBy(sig, rr, key, c))
    {
      if Covers(ns[i], rr, parent, c) {
        for j := 0 to |keys|
          invariant forall key <- keys[..j] :: !SignedBy(ns[i], rr, key, c)
        {
          if SignedBy(ns[i], rr, keys[j], c) {
            assert ns[i] in ns && keys[j] in keys;
            return true;
          }
        }
        assert keys[..|keys|] == keys;
      }
    }
    assert ns[..|ns|] == ns;
    return false;
  }

  // ---- the proof -------------------------------------------------------------------------

  /** The record of the name itself says delegation, and no DS. */
  predicate Exact(rr: Rr, name: Name, c: Crypto) {
    || (rr.data.NsecData? && rr.name == name && DelegationWithoutDs(rr.data.types))
    || (rr.data.Nsec3Data? && c.matches(rr, name) && DelegationWithoutDs(rr.data.types))
  }

  predicate ExactProof(ns: seq<Rr>, name: Name, parent: Name, keys: seq<KeyData>, c: Crypto) {
    exists rr <- ns :: Exact(rr, name, c) && Signed(ns, rr, parent, keys, c)
  }

  predicate SameParameters(a: Rr, b: Rr) {
    a.data.Nsec3Data? && b.data.Nsec3Data? && a.data.params == b.data.params
  }

  predicate Encloser(ns: seq<Rr>, rr: Rr, closest: Name, parent: Name, keys: seq<KeyData>, c: Crypto) {
    rr.data.Nsec3Data? && c.matches(rr, closest) && Signed(ns, rr, parent, keys, c)
  }

  predicate OptOut(flags: int) { flags % 2 == 1 }

  predicate Span(ns: seq<Rr>, rr: Rr, encloser: Rr, next: Name, parent: Name, keys: seq<KeyData>, c: Crypto) {
    && rr.data.Nsec3Data? && OptOut(rr.data.flags) && SameParameters(encloser, rr) && c.covers(rr, next)
    && Signed(ns, rr, parent, keys, c)
  }

  /** The NSEC3 records of a section, in order. */
  function Nsec3s(ns: seq<Rr>): (r: seq<Rr>)
    ensures forall rr :: rr in r <==> rr in ns && rr.data.Nsec3Data?
  {
    if ns == [] then []
    else Nsec3s(ns[..|ns| - 1]) + (if ns[|ns| - 1].data.Nsec3Data? then [ns[|ns| - 1]] else [])
  }

  /** The first record of the list that proves `closest` to exist. */
  function FirstEncloser(ns: seq<Rr>, list: seq<Rr>, closest: Name, parent: Name, keys: seq<KeyData>,
                         c: Crypto): (r: Option<Rr>)
    ensures r.Some? ==> r.value in list && Encloser(ns, r.value, closest, parent, keys, c)
    ensures r.None? ==> forall rr <- list :: !Encloser(ns, rr, closest, parent, keys, c)
  {
    if list == [] then None
    else if Encloser(ns, list[0], closest, parent, keys, c) then Some(list[0])
    else FirstEncloser(ns, list[1..], closest, parent, keys, c)
  }

  /** From the i-th ancestor on: the first one with a signed record decides. */
  predicate EncloserProof(ns: seq<Rr>, name: Name, i: nat, parent: Name, keys: seq<KeyData>, c: Crypto)
    requires 1 <= i
    decreases |name| - i
  {
    i < |name| &&
    var found := if IsSubDomain(parent, name[i..]) then FirstEncloser(ns, Nsec3s(ns), name[i..], parent, keys, c) else None;
    if found.None? then EncloserProof(ns, name, i + 1, parent, keys, c)
    else exists rr <- ns :: Span(ns, rr, found.value, name[i - 1..], parent, keys, c)
  }

  predicate Accepts(ns: seq<Rr>, name: Name, parent: Name, keys: seq<KeyData>, c: Crypto) {
    ExactProof(ns, name, parent, keys, c) || EncloserProof(ns, name, 1, parent, keys, c)
  }

  // ---- the search loops --------------------------------------------------------------------

  method FindEncloser(ns: seq<Rr>, nsec3s: seq<Rr>, closest: Name, parent: Name, keys: seq<KeyData>, c: Crypto)
    returns (r: Option<Rr>)
    requires forall rr <- nsec3s :: rr.data.Nsec3Data?
    ensures r == FirstEncloser(ns, nsec3s, closest, parent, keys, c)
  {
    for k := 0 to |nsec3s|
      invariant FirstEncloser(ns, nsec3s, closest, parent, keys, c) == FirstEncloser(ns, nsec3s[k..], closest, parent, keys, c)
    {
      var signed := ValidDenialSignature(ns, nsec3s[k], parent, keys, c);
      if c.matches(nsec3s[k], closest) && signed {
        return Some(nsec3s[k]);
      }
    }
    return None;
  }

  method FindSpan(ns: seq<Rr>, nsec3s: seq<Rr>, encloser: Rr, next: Name, parent: Name, keys: seq<KeyData>,
                  c: Crypto) returns (found: bool)
    requires forall rr <- nsec3s :: rr.data.Nsec3Data?
    ensures found == exists rr <- nsec3s :: Span(ns, rr, encloser, next, parent, keys, c)
  {
    for k := 0 to |nsec3s|
      invariant forall rr <- nsec3s[..k] :: !Span(ns, rr, encloser, next, parent, keys, c)
    {
      var signed := ValidDenialSignature(ns, nsec3s[k], parent, keys, c);
      if OptOut(nsec3s[k].data.flags) && SameParameters(encloser, nsec3s[k]) && c.covers(nsec3s[k], next) && signed {
        assert nsec3s[k] in nsec3s;
        return true;
      }
    }
    assert nsec3s[..|nsec3s|] == nsec3s;
    return false;
  }

  /** The first pass: an exact record ends the search, NSEC3 records are collected. */
  method FindExact(ns: seq<Rr>, name: Name, parent: Name, keys: seq<KeyData>, c: Crypto)
    returns (found: bool, nsec3s: seq<Rr>)
    ensures found == ExactProof(ns, name, parent, keys, c)
    ensures !found ==> nsec3s == Nsec3s(ns)
  {
    nsec3s := [];
    for i := 0 to |ns|
      invariant forall rr <- ns[..i] :: !(Exact(rr, name, c) && Signed(ns, rr, parent, keys, c))
      invariant nsec3s == Nsec3s(ns[..i])
    {
      var rr := ns[i];
      assert ns[..i + 1] == ns[..i] + [rr] && ns[..i + 1][..i] == ns[..i];
      if rr.data.Nsec3Data? {
        nsec3s := nsec3s + [rr];
      }
      if Exact(rr, name, c) {
        var signed := ValidDenialSignature(ns, rr, parent, keys, c);
        if signed {
          assert rr in ns;
          return true, nsec3s;
        }
      }
    }
    assert ns[..|ns|] == ns;
    return false, nsec3s;
  }

  /** The whole search. */
  method VerifyNoDsProof(ns: seq<Rr>, name: Name, parent: Name, keys: seq<KeyData>, c: Crypto) returns (ok: bool)
    ensures ok == Accepts(ns, name, parent, keys, c)
  {
    var exact, nsec3s := FindExact(ns, name, parent, keys, c);
    if exact {
      return true;
    }
    var i := 1;
    while i < |name|
      invariant 1 <= i
      invariant EncloserProof(ns, name, 1, parent, keys, c) == EncloserProof(ns, name, i, parent, keys, c)
    {
      var closest := name[i..];
      if IsSubDomain(parent, closest) {
        var found := FindEncloser(ns, nsec3s, closest, parent, keys, c);
        if found.Some? {
          ok := FindSpan(ns, nsec3s, found.value, name[i - 1..], parent, keys, c);
          assert (exists rr <- nsec3s :: Span(ns, rr, found.value, name[i - 1..], parent, keys, c))
              == (exists rr <- ns :: Span(ns, rr, found.value, name[i - 1..], parent, keys, c));
          return;
        }
      }
      i := i + 1;
    }
    return false;
  }

  // ---- what acceptance means ------------------------------------------------------------------

  /** The parent's zone: its record types by name, and the names its NSEC3 chain was made
      from. */
  datatype ParentZone = ParentZone(apex: Name, types: map<Name, set<int>>, chain: set<Name>)

  predicate HasDs(z: ParentZone, n: Name) { n in z.types && TYPE_DS in z.types[n] }

  /** RFC 5155 section 7.1: every name that owns more than an insecure delegation is in the
      chain, and so are the names between it and the apex. */
  ghost predicate Chained(z: ParentZone) {
    forall n <- z.types, i: nat | HasDs(z, n) && i <= |n| && n[i..] != z.apex && IsSubDomain(z.apex, n[i..]) :: n[i..] in z.chain
  }

  /** A signed denial record of the zone tells the truth. */
  ghost predicate TrueRecord(z: ParentZone, rr: Rr, c: Crypto) {
    && (rr.data.NsecData? && rr.name in z.types ==> forall t <- z.types[rr.name] :: t in rr.data.types)
    && (rr.data.Nsec3Data? ==>
          && (forall n :: c.matches(rr, n) ==> n in z.chain && (n in z.types ==> forall t <- z.types[n] :: t in rr.data.types))
          && (forall n :: c.covers(rr, n) ==> n !in z.chain))
  }

  ghost predicate TrueZone(z: ParentZone, ns: seq<Rr>, keys: seq<KeyData>, c: Crypto) {
    Chained(z) && forall rr <- ns :: Signed(ns, rr, z.apex, keys, c) ==> TrueRecord(z, rr, c)
  }

  /** An ancestor in the chain whose next name towards `name` is not. */
  ghost predicate ProvenEncloser(z: ParentZone, name: Name, i: nat) {
    1 <= i < |name| && IsSubDomain(z.apex, name[i..]) && name[i..] in z.chain && name[i - 1..] !in z.chain
  }

  lemma {:induction false} EncloserMeans(z: ParentZone, ns: seq<Rr>, name: Name, i: nat, keys: seq<KeyData>,
                                         c: Crypto) returns (k: nat)
    requires 1 <= i && TrueZone(z, ns, keys, c) && EncloserProof(ns, name, i, z.apex, keys, c)
    ensures ProvenEncloser(z, name, k)
    decreases |name| - i
  {
    var found := if IsSubDomain(z.apex, name[i..]) then FirstEncloser(ns, Nsec3s(ns), name[i..], z.apex, keys, c) else None;
    if found.None? {
      k := EncloserMeans(z, ns, name, i + 1, keys, c);
    } else {
      k := i;
      assert TrueRecord(z, found.value, c) && c.matches(found.value, name[i..]);
      var rr :| rr in ns && Span(ns, rr, found.value, name[i - 1..], z.apex, keys, c);
      assert TrueRecord(z, rr, c) && c.covers(rr, name[i - 1..]);
    }
  }

  /** A name below a gap in the chain has no DS, however many labels below. */
  lemma BelowGap(z: ParentZone, name: Name, i: nat)
    requires Chained(z) && ProvenEncloser(z, name, i)
    ensures !HasDs(z, name)
  {
    var next := name[i - 1..];
    assert next[|next| - |z.apex|..] == name[|name| - |z.apex|..];
    assert name[i..][|name| - i - |z.apex|..] == name[|name| - |z.apex|..];
  }

  /** Soundness, RFC 5155 sections 8.3, 8.6 and 8.9: if the signed denial records of the
      parent zone are true, acceptance means the zone has no DS at the name; and that it was
      either the delegation's own record or a proven closest encloser that showed it. */
  lemma AcceptedMeansNoDs(z: ParentZone, ns: seq<Rr>, name: Name, keys: seq<KeyData>, c: Crypto)
    requires TrueZone(z, ns, keys, c) && Accepts(ns, name, z.apex, keys, c)
    ensures !HasDs(z, name)
    ensures || (exists rr <- ns :: Exact(rr, name, c) && Signed(ns, rr, z.apex, keys, c))
            || (exists i: nat :: ProvenEncloser(z, name, i))
  {
    if ExactProof(ns, name, z.apex, keys, c) {
      var rr :| rr in ns && Exact(rr, name, c) && Signed(ns, rr, z.apex, keys, c);
      assert TrueRecord(z, rr, c);
    } else {
      var k := EncloserMeans(z, ns, name, 1, keys, c);
      BelowGap(z, name, k);
    }
  }
}
