/** Strings as the controller compares them: byte order, sorting and compacting, decimal
    numbers, joined lists, and the map keys built from them. */
module Text {
  import opened Model

  // ---- order ---------------------------------------------------------------------------

  predicate Leq(a: string, b: string) {
    a == [] || (b != [] && (a[0] < b[0] || (a[0] == b[0] && Leq(a[1..], b[1..]))))
  }

  lemma {:induction false} LeqTotal(a: string, b: string)
    ensures Leq(a, b) || Leq(b, a)
  {
    if a != [] && b != [] && a[0] == b[0] {
      LeqTotal(a[1..], b[1..]);
    }
  }

  lemma {:induction false} LeqAntisymmetric(a: string, b: string)
    requires Leq(a, b) && Leq(b, a)
    ensures a == b
  {
    if a != [] {
      LeqAntisymmetric(a[1..], b[1..]);
      assert a == [a[0]] + a[1..] && b == [b[0]] + b[1..];
    }
  }

  lemma {:induction false} LeqTransitive(a: string, b: string, c: string)
    requires Leq(a, b) && Leq(b, c)
    ensures Leq(a, c)
  {
    if a != [] && a[0] == b[0] == c[0] {
      LeqTransitive(a[1..], b[1..], c[1..]);
    }
  }

  predicate Sorted(s: seq<string>) { forall i, j | 0 <= i < j < |s| :: Leq(s[i], s[j]) }

  /** Where x belongs in a sorted list. */
  function Place(s: seq<string>, x: string): (n: nat)
    ensures n <= |s|
    ensures forall i | 0 <= i < n :: !Leq(x, s[i])
    ensures n < |s| ==> Leq(x, s[n])
  {
    if s == [] || Leq(x, s[0]) then 0 else 1 + Place(s[1..], x)
  }

  /** What a sort returns: the one sorted permutation (see SortUnique). */
  function SortStrings(s: seq<string>): (r: seq<string>)
    ensures Sorted(r) && multiset(r) == multiset(s) && |r| == |s|
  {
    if s == [] then []
    else
      var rest := SortStrings(s[1..]);
      var n := Place(rest, s[0]);
      var r := rest[..n] + [s[0]] + rest[n..];
      assert Sorted(r) by { InsertSorted(rest, s[0], n); }
      assert multiset(r) == multiset(s) by {
        assert rest == rest[..n] + rest[n..];
        assert s == [s[0]] + s[1..];
      }
      r
  }

  lemma InsertSorted(s: seq<string>, x: string, n: nat)
    requires Sorted(s) && n == Place(s, x)
    ensures Sorted(s[..n] + [x] + s[n..])
  {
    var r := s[..n] + [x] + s[n..];
    forall i, j | 0 <= i < j < |r|
      ensures Leq(r[i], r[j])
    {
      if i < n && j == n {
        LeqTotal(s[i], x);
      } else if i == n && j > n {
        if j - 1 > n {
          LeqTransitive(x, s[n], s[j - 1]);
        }
      }
    }
  }

  /** Sorting leaves no choice: equal multisets sort to equal sequences. */
  lemma {:induction false} SortUnique(a: seq<string>, b: seq<string>)
    requires Sorted(a) && Sorted(b) && multiset(a) == multiset(b)
    ensures a == b
  {
    if a == [] {
      assert |multiset(b)| == 0;
    } else {
      assert a[0] in multiset(b) && |multiset(a)| == |multiset(b)|;
      assert b[0] in multiset(a);
      FirstLeast(a, b[0]);
      FirstLeast(b, a[0]);
      LeqAntisymmetric(a[0], b[0]);
      assert a == [a[0]] + a[1..] && b == [b[0]] + b[1..];
      assert multiset(a[1..]) == multiset(a) - multiset{a[0]};
      assert multiset(b[1..]) == multiset(b) - multiset{b[0]};
      SortUnique(a[1..], b[1..]);
    }
  }

  lemma FirstLeast(s: seq<string>, x: string)
    requires Sorted(s) && x in s
    ensures Leq(s[0], x)
  {
    LeqTotal(x, x);
  }

  // ---- sorted lists without repetition ---------------------------------------------------

  predicate Strict(s: seq<string>) { Sorted(s) && forall i, j | 0 <= i < j < |s| :: s[i] != s[j] }

  /** Drops repeated neighbours. */
  method Compact(s: seq<string>) returns (r: seq<string>)
    requires Sorted(s)
    ensures Strict(r)
    ensures forall x :: x in r <==> x in s
  {
    r := [];
    for i := 0 to |s|
      invariant Strict(r)
      invariant forall x :: x in r <==> x in s[..i]
      invariant r != [] ==> i > 0 && r[|r| - 1] == s[i - 1]
    {
      assert s[..i + 1] == s[..i] + [s[i]];
      if i == 0 || s[i] != s[i - 1] {
        forall j | 0 <= j < |r|
          ensures Leq(r[j], s[i]) && r[j] != s[i]
        {
          assert r[j] in s[..i];
          var k :| 0 <= k < i && s[k] == r[j];
          if r[j] == s[i] {
            LeqAntisymmetric(s[i - 1], s[i]);
          }
        }
        r := r + [s[i]];
      }
    }
    assert s[..|s|] == s;
  }

  lemma HeadIn(s: seq<string>)
    ensures s != [] ==> s[0] in s
  {}

  /** A strictly sorted list is determined by its set of elements. */
  lemma {:induction false} StrictUnique(a: seq<string>, b: seq<string>)
    requires Strict(a) && Strict(b) && forall x :: x in a <==> x in b
    ensures a == b
  {
    HeadIn(b);
    if a == [] {
    } else {
      assert a[0] in b && b != [];
      assert b[0] in a;
      FirstLeast(a, b[0]);
      FirstLeast(b, a[0]);
      LeqAntisymmetric(a[0], b[0]);
      forall x
        ensures x in a[1..] <==> x in b[1..]
      {
        if x in a[1..] {
          assert x in a && x != a[0];
        }
        if x in b[1..] {
          assert x in b && x != b[0];
        }
      }
      StrictUnique(a[1..], b[1..]);
      assert a == [a[0]] + a[1..] && b == [b[0]] + b[1..];
    }
  }

  // ---- numbers ----------------------------------------------------------------------------

  const DIGITS := "0123456789"

  function Decimal(n: nat): (r: string)
    ensures |r| > 0 && forall i | 0 <= i < |r| :: r[i] in DIGITS
  {
    if n < 10 then [DIGITS[n]] else Decimal(n / 10) + [DIGITS[n % 10]]
  }

  lemma DigitUnique(a: nat, b: nat)
    requires a < 10 && b < 10 && DIGITS[a] == DIGITS[b]
    ensures a == b
  {}

  lemma DecimalLength(n: nat)
    ensures n < 10 <==> |Decimal(n)| == 1
  {
    if n >= 10 {
      assert |Decimal(n / 10)| > 0;
    }
  }

  lemma {:induction false} DecimalUnique(a: nat, b: nat)
    requires Decimal(a) == Decimal(b)
    ensures a == b
  {
    var x, y := Decimal(a), Decimal(b);
    DecimalLength(a);
    DecimalLength(b);
    if a < 10 {
      DigitUnique(a, b);
    } else {
      assert x[..|x| - 1] == Decimal(a / 10) && y[..|y| - 1] == Decimal(b / 10);
      assert x[|x| - 1] == DIGITS[a % 10] && y[|y| - 1] == DIGITS[b % 10];
      DecimalUnique(a / 10, b / 10);
      DigitUnique(a % 10, b % 10);
    }
  }

  // ---- fields joined by a separator ---------------------------------------------------------

  /** The first separator splits the text in one way only. */
  lemma SplitUnique(a: string, x: string, b: string, y: string, sep: char)
    requires a + [sep] + x == b + [sep] + y && sep !in a && sep !in b
    ensures a == b && x == y
  {
    var s := a + [sep] + x;
    assert forall i | 0 <= i < |a| :: s[i] == a[i];
    assert forall i | 0 <= i < |b| :: (b + [sep] + y)[i] == b[i];
    assert s[|a|] == sep && (b + [sep] + y)[|b|] == sep;
    assert |a| == |b|;
    assert s[..|a|] == a && (b + [sep] + y)[..|b|] == b;
    assert s[|a| + 1..] == x && (b + [sep] + y)[|b| + 1..] == y;
  }

  function KindName(kind: Kind): string {
    match kind case ZSK => "zsk" case KSK => "ksk" case Split => "split" case Enroll => "enroll"
  }

  function WorkflowKey(zone: string, kind: Kind): string { zone + "|" + KindName(kind) }

  /** Zone names may contain a bar, kind names do not: the map key determines both. */
  lemma WorkflowKeyInjective(z1: string, k1: Kind, z2: string, k2: Kind)
    requires WorkflowKey(z1, k1) == WorkflowKey(z2, k2)
    ensures z1 == z2 && k1 == k2
  {
    var s := WorkflowKey(z1, k1);
    var n1, n2 := KindName(k1), KindName(k2);
    assert forall j | |z1| < j < |s| :: s[j] == n1[j - |z1| - 1] != '|';
    assert forall j | |z2| < j < |s| :: s[j] == n2[j - |z2| - 1] != '|';
    assert s[|z1|] == '|' && s[|z2|] == '|';
    assert |z1| == |z2|;
    assert s[..|z1|] == z1 && s[..|z2|] == z2;
    assert s[|z1| + 1..] == n1 && s[|z2| + 1..] == n2;
    assert n1 == n2 && n1[0] == n2[0];
  }

  // ---- lists joined by commas -----------------------------------------------------------------

  function Join(names: seq<string>): string {
    if names == [] then ""
    else if |names| == 1 then names[0]
    else names[0] + "," + Join(names[1..])
  }

  /** The pieces between commas; never none. */
  function Cut(s: string): (r: seq<string>)
    ensures r != []
  {
    if s == "" then [""]
    else
      var rest := Cut(s[1..]);
      if s[0] == ',' then [""] + rest else [[s[0]] + rest[0]] + rest[1..]
  }

  function CutAll(names: seq<string>): seq<string> {
    if names == [] then []
    else Cut(names[0]) + CutAll(names[1..])
  }

  lemma {:induction false} CutJoined(s: string, t: string)
    ensures Cut(s + "," + t) == Cut(s) + Cut(t)
  {
    if s == "" {
      assert s + "," + t == [','] + t;
    } else {
      assert (s + "," + t)[1..] == s[1..] + "," + t;
      CutJoined(s[1..], t);
      var rest := Cut(s[1..]);
      assert (rest + Cut(t))[0] == rest[0] && (rest + Cut(t))[1..] == rest[1..] + Cut(t);
    }
  }

  lemma {:induction false} CutOfJoin(names: seq<string>)
    ensures Cut(Join(names)) == if names == [] then [""] else CutAll(names)
  {
    if |names| == 1 {
      assert CutAll(names) == Cut(names[0]) + CutAll(names[1..]);
    } else if |names| > 1 {
      CutOfJoin(names[1..]);
      CutJoined(names[0], Join(names[1..]));
    }
  }

  lemma {:induction false} JoinOfCut(s: string)
    ensures Join(Cut(s)) == s
  {
    if s != "" {
      JoinOfCut(s[1..]);
      var rest := Cut(s[1..]);
      if s[0] == ',' {
        assert ([""] + rest)[1..] == rest;
        assert "" + "," + Join(rest) == s;
      } else {
        var r := [[s[0]] + rest[0]] + rest[1..];
        assert r[1..] == rest[1..];
        assert Join(r) == [s[0]] + Join(rest);
      }
    }
  }

  /** Two lists are joined to the same text exactly when cutting them at every comma gives
      the same pieces; the empty list counts as one empty name. */
  lemma JoinsAgree(a: seq<string>, b: seq<string>)
    ensures Join(a) == Join(b) <==> (if a == [] then [""] else CutAll(a)) == (if b == [] then [""] else CutAll(b))
  {
    CutOfJoin(a);
    CutOfJoin(b);
    JoinOfCut(Join(a));
    JoinOfCut(Join(b));
  }

  predicate CommaFree(names: seq<string>) { forall n <- names :: ',' !in n }

  lemma {:induction false} CutPlain(s: string)
    requires ',' !in s
    ensures Cut(s) == [s]
  {
    if s != "" {
      assert ',' !in s[1..];
      CutPlain(s[1..]);
      assert [s[0]] + s[1..] == s;
    }
  }

  lemma {:induction false} CutAllPlain(names: seq<string>)
    requires CommaFree(names)
    ensures CutAll(names) == names
  {
    if names != [] {
      assert names[0] in names;
      assert forall n <- names[1..] :: n in names;
      CutPlain(names[0]);
      CutAllPlain(names[1..]);
    }
  }

  /** Lists of comma-free names are told apart, except none from one empty name. */
  lemma JoinSeparates(a: seq<string>, b: seq<string>)
    requires CommaFree(a) && CommaFree(b)
    ensures Join(a) == Join(b) <==> a == b || (a == [] && b == [""]) || (a == [""] && b == [])
  {
    JoinsAgree(a, b);
    CutAllPlain(a);
    CutAllPlain(b);
  }

  /** With commas they are not. */
  lemma JoinConfuses()
    ensures Join(["a,b"]) == Join(["a", "b"]) && ["a,b"] != ["a", "b"]
  {
    var two := ["a", "b"];
    assert two[1..] == ["b"];
    assert Join(two) == "a" + "," + "b";
    assert |two| == 2 && |["a,b"]| == 1;
  }
}
