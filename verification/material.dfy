/** Comparing sets of DNSKEY and DS material: the source encodes records as text, sorts and
    compares; that accepts exactly the equal multisets of normalised records. */
module Material {
  import opened Model
  import opened Text
  import opened Dns

  /** Three numbers and a text, as "%d/%d/%d/%s" prints them. */
  datatype Quad = Quad(a: nat, b: nat, c: nat, text: string)

  function Encode(q: Quad): string { Decimal(q.a) + "/" + (Decimal(q.b) + "/" + (Decimal(q.c) + "/" + q.text)) }

  lemma NoSlash(n: nat)
    ensures '/' !in Decimal(n)
  {}

  lemma EncodeInjective(p: Quad, q: Quad)
    requires Encode(p) == Encode(q)
    ensures p == q
  {
    NoSlash(p.a);
    NoSlash(q.a);
    NoSlash(p.b);
    NoSlash(q.b);
    NoSlash(p.c);
    NoSlash(q.c);
    var p1, q1 := Decimal(p.c) + "/" + p.text, Decimal(q.c) + "/" + q.text;
    var p2, q2 := Decimal(p.b) + "/" + p1, Decimal(q.b) + "/" + q1;
    SplitUnique(Decimal(p.a), p2, Decimal(q.a), q2, '/');
    SplitUnique(Decimal(p.b), p1, Decimal(q.b), q1, '/');
    SplitUnique(Decimal(p.c), p.text, Decimal(q.c), q.text, '/');
    DecimalUnique(p.a, q.a);
    DecimalUnique(p.b, q.b);
    DecimalUnique(p.c, q.c);
  }

  function EncodeAll(qs: seq<Quad>): (r: seq<string>)
    ensures |r| == |qs| && forall i | 0 <= i < |qs| :: r[i] == Encode(qs[i])
  {
    if qs == [] then [] else [Encode(qs[0])] + EncodeAll(qs[1..])
  }

  lemma {:induction false} EncodedCount(qs: seq<Quad>, q: Quad)
    ensures multiset(EncodeAll(qs))[Encode(q)] == multiset(qs)[q]
  {
    if qs != [] {
      EncodedCount(qs[1..], q);
      assert qs == [qs[0]] + qs[1..];
      assert EncodeAll(qs) == [Encode(qs[0])] + EncodeAll(qs[1..]);
      if Encode(qs[0]) == Encode(q) {
        EncodeInjective(qs[0], q);
      }
    }
  }

  lemma TextCount(a: seq<Quad>, b: seq<Quad>, t: string)
    requires multiset(a) == multiset(b)
    ensures multiset(EncodeAll(a))[t] == multiset(EncodeAll(b))[t]
  {
    if i :| 0 <= i < |a| && Encode(a[i]) == t {
      EncodedCount(a, a[i]);
      EncodedCount(b, a[i]);
    } else if i :| 0 <= i < |b| && Encode(b[i]) == t {
      EncodedCount(a, b[i]);
      EncodedCount(b, b[i]);
    } else {
      assert t !in EncodeAll(a) && t !in EncodeAll(b);
    }
  }

  lemma DecodedMultisets(a: seq<Quad>, b: seq<Quad>)
    requires multiset(EncodeAll(a)) == multiset(EncodeAll(b))
    ensures multiset(a) == multiset(b)
  {
    forall q: Quad
      ensures multiset(a)[q] == multiset(b)[q]
    {
      EncodedCount(a, q);
      EncodedCount(b, q);
    }
  }

  /** Encoding loses nothing about a multiset of records. */
  lemma EncodedMultisets(a: seq<Quad>, b: seq<Quad>)
    ensures multiset(EncodeAll(a)) == multiset(EncodeAll(b)) <==> multiset(a) == multiset(b)
  {
    if multiset(EncodeAll(a)) == multiset(EncodeAll(b)) {
      DecodedMultisets(a, b);
    } else if multiset(a) == multiset(b) {
      forall t: string
        ensures multiset(EncodeAll(a))[t] == multiset(EncodeAll(b))[t]
      {
        TextCount(a, b, t);
      }
      assert false;
    }
  }

  /** Sort, then compare. */
  lemma SortedCompare(a: seq<Quad>, b: seq<Quad>)
    ensures SortStrings(EncodeAll(a)) == SortStrings(EncodeAll(b)) <==> multiset(a) == multiset(b)
  {
    EncodedMultisets(a, b);
    if multiset(a) == multiset(b) {
      SortUnique(SortStrings(EncodeAll(a)), SortStrings(EncodeAll(b)));
    }
  }

  // ---- registrar material ------------------------------------------------------------------

  predicate IsSpace(c: char) { c in " \t\n\r\U{b}\U{c}\U{85}\U{a0}" }

  function TrimLeft(s: string): string {
    if s != "" && IsSpace(s[0]) then TrimLeft(s[1..]) else s
  }

  function TrimRight(s: string): string {
    if s != "" && IsSpace(s[|s| - 1]) then TrimRight(s[..|s| - 1]) else s
  }

  function Trim(s: string): string { TrimRight(TrimLeft(s)) }

  /** DNSKEY material with the white space around its key text removed. */
  function Normal(k: KeyData): Quad { Quad(k.flags, k.protocol, k.algorithm, Trim(k.publicKey)) }

  function Normals(ks: seq<KeyData>): (r: seq<Quad>)
    ensures |r| == |ks| && forall i | 0 <= i < |ks| :: r[i] == Normal(ks[i])
  {
    if ks == [] then [] else [Normal(ks[0])] + Normals(ks[1..])
  }

  method EncodeMaterial(ks: seq<KeyData>) returns (texts: array<string>)
    ensures fresh(texts) && texts[..] == EncodeAll(Normals(ks))
  {
    texts := new string[|ks|](_ => "");
    var all := EncodeAll(Normals(ks));
    for i := 0 to |ks|
      invariant texts[..i] == all[..i]
    {
      texts[i] := Encode(Normal(ks[i]));
      assert texts[..i + 1] == texts[..i] + [texts[i]];
    }
    assert texts[..] == texts[..|ks|] && all == all[..|ks|];
  }

  /** True exactly when both hold the same records equally often. */
  method SameMaterial(a: seq<KeyData>, b: seq<KeyData>) returns (same: bool)
    ensures same <==> multiset(Normals(a)) == multiset(Normals(b))
  {
    if |a| != |b| {
      assert |multiset(Normals(a))| != |multiset(Normals(b))|;
      return false;
    }
    var aa := EncodeMaterial(a);
    var bb := EncodeMaterial(b);
    SortedCompare(Normals(a), Normals(b));
    same := SortStrings(aa[..]) == SortStrings(bb[..]);
  }

  /** Against a single expected record, as every handler uses it. */
  lemma OneRecord(a: seq<KeyData>, k: KeyData)
    ensures multiset(Normals(a)) == multiset(Normals([k])) <==> |a| == 1 && Normal(a[0]) == Normal(k)
  {
    assert Normals([k]) == [Normal(k)];
    if multiset(Normals(a)) == multiset([Normal(k)]) {
      assert |multiset(Normals(a))| == 1;
      assert Normals(a) == [Normals(a)[0]];
      assert Normals(a)[0] in multiset([Normal(k)]);
    } else if |a| == 1 {
      assert Normals(a) == [Normal(a[0])];
    }
  }

  // ---- DNSKEY RRsets -------------------------------------------------------------------------

  function KeyQuad(k: KeyData): Quad { Quad(k.flags, k.protocol, k.algorithm, k.publicKey) }

  function KeyQuads(ks: seq<KeyData>): (r: seq<Quad>)
    ensures |r| == |ks| && forall i | 0 <= i < |ks| :: r[i] == KeyQuad(ks[i])
  {
    if ks == [] then [] else [KeyQuad(ks[0])] + KeyQuads(ks[1..])
  }

  lemma {:induction false} KeyQuadCount(ks: seq<KeyData>, k: KeyData)
    ensures multiset(KeyQuads(ks))[KeyQuad(k)] == multiset(ks)[k]
  {
    if ks != [] {
      KeyQuadCount(ks[1..], k);
      assert ks == [ks[0]] + ks[1..];
      assert KeyQuads(ks) == [KeyQuad(ks[0])] + KeyQuads(ks[1..]);
    }
  }

  lemma KeyQuadMultisets(a: seq<KeyData>, b: seq<KeyData>)
    ensures multiset(KeyQuads(a)) == multiset(KeyQuads(b)) <==> multiset(a) == multiset(b)
  {
    if multiset(KeyQuads(a)) == multiset(KeyQuads(b)) {
      forall k: KeyData
        ensures multiset(a)[k] == multiset(b)[k]
      {
        KeyQuadCount(a, k);
        KeyQuadCount(b, k);
      }
    } else if multiset(a) == multiset(b) {
      forall q: Quad
        ensures multiset(KeyQuads(a))[q] == multiset(KeyQuads(b))[q]
      {
        var k := KeyData(q.a, q.b, q.c, q.text);
        KeyQuadCount(a, k);
        KeyQuadCount(b, k);
      }
      assert false;
    }
  }

  /** The DNSKEY data of an answer, in order. */
  function Dnskeys(rrs: seq<Rr>): seq<KeyData> {
    if rrs == [] then []
    else Dnskeys(rrs[..|rrs| - 1]) + (if rrs[|rrs| - 1].data.DnskeyData? then [rrs[|rrs| - 1].data.key] else [])
  }

  lemma {:induction false} KeyQuadsAppend(a: seq<KeyData>, k: KeyData)
    ensures EncodeAll(KeyQuads(a + [k])) == EncodeAll(KeyQuads(a)) + [Encode(KeyQuad(k))]
  {}

  predicate AllOwned(rrs: seq<Rr>, typ: int, owner: Name) {
    forall rr <- rrs :: TypeOf(rr) == typ ==> SameOwnerClass(rr, owner)
  }

  lemma OwnedAppend(rrs: seq<Rr>, rr: Rr, typ: int, owner: Name)
    ensures AllOwned(rrs + [rr], typ, owner) <==> AllOwned(rrs, typ, owner) && (TypeOf(rr) == typ ==> SameOwnerClass(rr, owner))
  {
    assert rr in rrs + [rr];
    assert forall x <- rrs :: x in rrs + [rr];
  }

  lemma DnskeysAppend(rrs: seq<Rr>, rr: Rr)
    ensures Dnskeys(rrs + [rr]) == Dnskeys(rrs) + (if rr.data.DnskeyData? then [rr.data.key] else [])
  {
    assert (rrs + [rr])[..|rrs|] == rrs;
  }

  method CollectDnskeys(rrs: seq<Rr>, owner: Name) returns (ok: bool, got: seq<string>)
    ensures ok <==> AllOwned(rrs, TYPE_DNSKEY, owner)
    ensures ok ==> got == EncodeAll(KeyQuads(Dnskeys(rrs)))
  {
    got := [];
    for i := 0 to |rrs|
      invariant AllOwned(rrs[..i], TYPE_DNSKEY, owner)
      invariant got == EncodeAll(KeyQuads(Dnskeys(rrs[..i])))
    {
      var rr := rrs[i];
      assert rr in rrs;
      assert rrs[..i + 1] == rrs[..i] + [rr];
      DnskeysAppend(rrs[..i], rr);
      OwnedAppend(rrs[..i], rr, TYPE_DNSKEY, owner);
      if rr.data.DnskeyData? {
        if !SameOwnerClass(rr, owner) {
          return false, got;
        }
        KeyQuadsAppend(Dnskeys(rrs[..i]), rr.data.key);
        got := got + [Encode(KeyQuad(rr.data.key))];
      } else {
        assert Dnskeys(rrs[..i]) + [] == Dnskeys(rrs[..i]);
      }
    }
    assert rrs[..|rrs|] == rrs;
    ok := true;
  }

  method EncodeKeys(want: seq<KeyData>) returns (expected: seq<string>)
    ensures expected == EncodeAll(KeyQuads(want))
  {
    expected := [];
    for i := 0 to |want|
      invariant expected == EncodeAll(KeyQuads(want[..i]))
    {
      assert want[..i + 1] == want[..i] + [want[i]];
      KeyQuadsAppend(want[..i], want[i]);
      expected := expected + [Encode(KeyQuad(want[i]))];
    }
    assert want[..|want|] == want;
  }

  /** Accepts exactly the wanted DNSKEY RRset, with the flags asked for. */
  method VerifyDnskeySet(r: Message, want: seq<KeyData>, requireAD: bool, requireAA: bool, owner: Name)
    returns (ok: bool)
    ensures ok <==> (requireAD ==> r.ad) && (requireAA ==> r.aa)
                    && AllOwned(r.answer, TYPE_DNSKEY, owner) && multiset(Dnskeys(r.answer)) == multiset(want)
  {
    if (requireAD && !r.ad) || (requireAA && !r.aa) {
      return false;
    }
    var owned, got := CollectDnskeys(r.answer, owner);
    if !owned {
      return false;
    }
    var expected := EncodeKeys(want);
    SortedCompare(KeyQuads(Dnskeys(r.answer)), KeyQuads(want));
    KeyQuadMultisets(Dnskeys(r.answer), want);
    ok := SortStrings(got) == SortStrings(expected);
  }

  // ---- DS RRsets -----------------------------------------------------------------------------

  function UpperChar(c: char): char { if 'a' <= c <= 'z' then (c as int - 32) as char else c }

  function Upper(s: string): string {
    if s == "" then "" else [UpperChar(s[0])] + Upper(s[1..])
  }

  /** A DS record with its digest in upper case. */
  function DsQuad(ds: Ds): Quad { Quad(ds.keyTag, ds.algorithm, ds.digestType, Upper(ds.digest)) }

  function DsQuads(s: seq<Ds>): (r: seq<Quad>)
    ensures |r| == |s| && forall i | 0 <= i < |s| :: r[i] == DsQuad(s[i])
  {
    if s == [] then [] else [DsQuad(s[0])] + DsQuads(s[1..])
  }

  function DsRecords(rrs: seq<Rr>): seq<Ds> {
    if rrs == [] then []
    else DsRecords(rrs[..|rrs| - 1]) + (if rrs[|rrs| - 1].data.DsData? then [rrs[|rrs| - 1].data.ds] else [])
  }

  lemma {:induction false} DsQuadsAppend(a: seq<Ds>, d: Ds)
    ensures EncodeAll(DsQuads(a + [d])) == EncodeAll(DsQuads(a)) + [Encode(DsQuad(d))]
  {}

  /** The texts the probe compares a DS answer with. */
  method ExpectedDs(expected: seq<Ds>) returns (want: seq<string>)
    ensures want == SortStrings(EncodeAll(DsQuads(expected)))
  {
    want := [];
    for i := 0 to |expected|
      invariant want == EncodeAll(DsQuads(expected[..i]))
    {
      assert expected[..i + 1] == expected[..i] + [expected[i]];
      DsQuadsAppend(expected[..i], expected[i]);
      want := want + [Encode(DsQuad(expected[i]))];
    }
    assert expected[..|expected|] == expected;
    want := SortStrings(want);
  }

  predicate ExactDsAnswer(r: Message, expected: seq<Ds>, owner: Name, requireAA: bool) {
    && (requireAA ==> r.aa) && AllOwned(r.answer, TYPE_DS, owner)
    && multiset(DsQuads(DsRecords(r.answer))) == multiset(DsQuads(expected))
  }

  lemma DsAppend(rrs: seq<Rr>, rr: Rr)
    ensures DsRecords(rrs + [rr]) == DsRecords(rrs) + (if rr.data.DsData? then [rr.data.ds] else [])
  {
    assert (rrs + [rr])[..|rrs|] == rrs;
  }

  method CollectDs(rrs: seq<Rr>, owner: Name) returns (ok: bool, got: seq<string>)
    ensures ok <==> AllOwned(rrs, TYPE_DS, owner)
    ensures ok ==> got == EncodeAll(DsQuads(DsRecords(rrs)))
  {
    got := [];
    for i := 0 to |rrs|
      invariant AllOwned(rrs[..i], TYPE_DS, owner)
      invariant got == EncodeAll(DsQuads(DsRecords(rrs[..i])))
    {
      var rr := rrs[i];
      assert rr in rrs;
      assert rrs[..i + 1] == rrs[..i] + [rr];
      DsAppend(rrs[..i], rr);
      OwnedAppend(rrs[..i], rr, TYPE_DS, owner);
      if rr.data.DsData? {
        if !SameOwnerClass(rr, owner) {
          return false, got;
        }
        DsQuadsAppend(DsRecords(rrs[..i]), rr.data.ds);
        got := got + [Encode(DsQuad(rr.data.ds))];
      } else {
        assert DsRecords(rrs[..i]) + [] == DsRecords(rrs[..i]);
      }
    }
    assert rrs[..|rrs|] == rrs;
    ok := true;
  }

  /** Accepts exactly the expected DS RRset, digests compared without regard to case. */
  method ExactDs(r: Message, want: seq<string>, owner: Name, requireAA: bool, ghost expected: seq<Ds>)
    returns (ok: bool)
    requires want == SortStrings(EncodeAll(DsQuads(expected)))
    ensures ok <==> ExactDsAnswer(r, expected, owner, requireAA)
  {
    if requireAA && !r.aa {
      return false;
    }
    var owned, got := CollectDs(r.answer, owner);
    if !owned {
      return false;
    }
    SortedCompare(DsQuads(DsRecords(r.answer)), DsQuads(expected));
    ok := SortStrings(got) == want;
  }
}
