/** The order of strings and the sorted listing of a finite set of them. */
module Ordering {

  predicate AtMost(a: string, b: string) {
    a == "" || (b != "" && (a[0] < b[0] || (a[0] == b[0] && AtMost(a[1..], b[1..]))))
  }

  predicate DiffersAt(a: string, b: string, k: nat) {
    k < |a| && k < |b| && a[..k] == b[..k] && a[k] != b[k]
  }

  /** A string comes before those that begin with it; else the character at the first difference decides. */
  lemma {:induction false} AtMostMeans(a: string, b: string, k: nat)
    ensures a <= b ==> AtMost(a, b)
    ensures b < a ==> !AtMost(a, b)
    ensures DiffersAt(a, b, k) ==> (AtMost(a, b) <==> a[k] < b[k])
  {
    if k > 0 && DiffersAt(a, b, k) { assert a[..k][0] == b[..k][0]; }
    if a != "" && b != "" && a[0] == b[0] {
      AtMostMeans(a[1..], b[1..], if k > 0 then k - 1 else 0);
      if k > 0 && DiffersAt(a, b, k) {
        assert a[1..][..k - 1] == a[..k][1..] && b[1..][..k - 1] == b[..k][1..];
      }
    }
  }

  lemma {:induction false} Transitive(a: string, b: string, c: string)
    requires AtMost(a, b) && AtMost(b, c)
    ensures AtMost(a, c)
  {
    if a != "" && a[0] == b[0] == c[0] { Transitive(a[1..], b[1..], c[1..]); }
  }

  lemma {:induction false} Total(a: string, b: string)
    ensures AtMost(a, b) || AtMost(b, a)
    ensures AtMost(a, b) && AtMost(b, a) ==> a == b
  {
    if a != "" && b != "" && a[0] == b[0] {
      Total(a[1..], b[1..]);
      assert a == [a[0]] + a[1..] && b == [b[0]] + b[1..];
    }
  }

  ghost predicate IsLeast(m: string, s: set<string>) {
    m in s && forall x :: x in s ==> AtMost(m, x)
  }

  lemma {:induction false} LeastExists(s: set<string>) returns (m: string)
    requires s != {}
    ensures IsLeast(m, s)
  {
    m :| m in s;
    if s != {m} {
      var other := LeastExists(s - {m});
      Total(m, other);
      forall x | x in s ensures AtMost(if AtMost(m, other) then m else other, x) {
        if x != m && AtMost(m, other) { Transitive(m, other, x); }
        Total(x, x);
      }
      m := if AtMost(m, other) then m else other;
    } else {
      Total(m, m);
    }
  }

  /** `sorted(s)`. */
  ghost function Sorted(s: set<string>): (list: seq<string>) {
    if s == {} then []
    else
      var m :| m in s && (IsLeast(m, s) || !exists l :: IsLeast(l, s));
      [m] + Sorted(s - {m})
  }

  lemma SortedStep(s: set<string>, m: string)
    requires IsLeast(m, s)
    ensures Sorted(s) == [m] + Sorted(s - {m})
  {
    var list := Sorted(s);
    var first := list[0];
    Total(first, m);
  }

  /** The listing has every element once, in ascending order. */
  lemma {:induction false} SortedListsTheSet(s: set<string>)
    ensures forall x :: x in Sorted(s) <==> x in s
    ensures |Sorted(s)| == |s|
    ensures forall i, j :: 0 <= i < j < |s| ==> AtMost(Sorted(s)[i], Sorted(s)[j]) && Sorted(s)[i] != Sorted(s)[j]
  {
    if s != {} {
      var m := LeastExists(s);
      SortedStep(s, m);
      SortedListsTheSet(s - {m});
      forall i, j | 0 <= i < j < |s| ensures AtMost(Sorted(s)[i], Sorted(s)[j]) && Sorted(s)[i] != Sorted(s)[j] {
        assert Sorted(s)[j] == Sorted(s - {m})[j - 1];
        assert Sorted(s)[j] in s - {m};
        if i > 0 { assert Sorted(s)[i] == Sorted(s - {m})[i - 1]; }
      }
    }
  }

  /** `sorted` of a set. */
  method SortSet(s: set<string>) returns (list: seq<string>)
    ensures list == Sorted(s)
  {
    list := [];
    var rest := s;
    while rest != {}
      invariant list + Sorted(rest) == Sorted(s)
    {
      ghost var least := LeastExists(rest);
      var m :| m in rest && forall x | x in rest :: AtMost(m, x);
      SortedStep(rest, m);
      assert list + ([m] + Sorted(rest - {m})) == (list + [m]) + Sorted(rest - {m});
      list := list + [m];
      rest := rest - {m};
    }
  }
}
