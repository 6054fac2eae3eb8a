/** DNS messages as the probe reads them. Names are kept as their lower-cased labels,
    leftmost first; the root is the empty list. */
module Dns {
  import opened Model

  type Name = seq<string>

  /** A DS record; `digest` is hexadecimal. */
  datatype Ds = Ds(keyTag: nat, algorithm: nat, digestType: nat, digest: string)

  const INET := 1
  const TYPE_NS := 2
  const TYPE_CNAME := 5
  const TYPE_SOA := 6
  const TYPE_DS := 43
  const TYPE_RRSIG := 46
  const TYPE_NSEC := 47
  const TYPE_DNSKEY := 48
  const TYPE_NSEC3 := 50

  /** Record types the probe has no structure for. */
  type OtherType = t: int |
    t != TYPE_NS && t != TYPE_SOA && t != TYPE_DS && t != TYPE_RRSIG && t != TYPE_NSEC && t != TYPE_DNSKEY && t != TYPE_NSEC3
    witness 1

  /** Hash parameters of an NSEC3 chain; the salt in canonical spelling. */
  datatype Params = Params(hash: int, iterations: int, salt: string)

  datatype RData =
    | DnskeyData(key: KeyData)
    | DsData(ds: Ds)
    | NsData(target: Name)
    | SoaData
    | NsecData(types: seq<int>)
    | Nsec3Data(params: Params, flags: int, types: seq<int>, next: string)
    | RrsigData(covered: int, signer: Name, keyTag: int, algorithm: int, signature: string)
    | OtherData(typ: OtherType)

  datatype Rr = Rr(name: Name, rrClass: int, ttl: Ttl, data: RData)

  datatype Message = Message(aa: bool, ad: bool, answer: seq<Rr>, ns: seq<Rr>)

  function TypeOf(rr: Rr): int {
    match rr.data
    case DnskeyData(_) => TYPE_DNSKEY
    case DsData(_) => TYPE_DS
    case NsData(_) => TYPE_NS
    case SoaData => TYPE_SOA
    case NsecData(_) => TYPE_NSEC
    case Nsec3Data(_, _, _, _) => TYPE_NSEC3
    case RrsigData(_, _, _, _, _) => TYPE_RRSIG
    case OtherData(typ) => typ
  }

  predicate SameOwnerClass(rr: Rr, owner: Name) { rr.rrClass == INET && rr.name == owner }

  predicate HasType(rrs: seq<Rr>, typ: int) { exists rr <- rrs :: TypeOf(rr) == typ }

  method FindType(rrs: seq<Rr>, typ: int) returns (found: bool)
    ensures found == HasType(rrs, typ)
  {
    for i := 0 to |rrs|
      invariant !HasType(rrs[..i], typ)
    {
      if TypeOf(rrs[i]) == typ {
        assert rrs[i] in rrs;
        return true;
      }
    }
    assert rrs[..|rrs|] == rrs;
    return false;
  }

  /** `zone` is `name` itself or one of its ancestors. */
  predicate IsSubDomain(zone: Name, name: Name) {
    |zone| <= |name| && name[|name| - |zone|..] == zone
  }
}
