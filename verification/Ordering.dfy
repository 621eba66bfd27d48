/** Lexicographic order on names, and sorting by it (Go's `sort.Strings`). */
module Ordering {

  predicate Leq(a: string, b: string) {
    a == [] || (b != [] && (a[0] < b[0] || (a[0] == b[0] && Leq(a[1..], b[1..]))))
  }

  /** The strings first differ at `i`, where `a` has the smaller character. */
  ghost predicate Below(a: string, b: string, i: nat) {
    i < |a| && i < |b| && a[..i] == b[..i] && a[i] < b[i]
  }

  lemma BelowTail(a: string, b: string, i: nat)
    requires a != [] && b != [] && a[0] == b[0]
    ensures Below(a, b, i + 1) <==> Below(a[1..], b[1..], i)
  {
    if i + 1 < |a| && i + 1 < |b| {
      assert a[..i + 1] == [a[0]] + a[1..][..i] && b[..i + 1] == [b[0]] + b[1..][..i];
      assert a[..i + 1][1..] == a[1..][..i] && b[..i + 1][1..] == b[1..][..i];
    }
  }

  lemma BelowHead(a: string, b: string, i: nat)
    requires a != [] && b != [] && a[0] != b[0]
    ensures Below(a, b, i) <==> i == 0 && a[0] < b[0]
  {
    if 0 < i < |a| && i < |b| {
      assert a[..i][0] == a[0] && b[..i][0] == b[0];
    }
  }

  /** What comes first: a beginning of the other string, or the string with the smaller character where the two first differ. */
  lemma {:induction false} LeqIff(a: string, b: string)
    ensures Leq(a, b) <==> a <= b || exists i: nat :: Below(a, b, i)
  {
    if a != [] && b != [] {
      hide Below;
      var c, d := a[1..], b[1..];
      assert a == [a[0]] + c && b == [b[0]] + d;
      if a[0] == b[0] {
        LeqIff(c, d);
        EqualHeads(a, b);
      } else {
        forall i: nat ensures Below(a, b, i) <==> i == 0 && a[0] < b[0] {
          BelowHead(a, b, i);
        }
        assert Below(a, b, 0) <==> a[0] < b[0];
      }
    } else {
      assert !exists i: nat :: Below(a, b, i);
    }
  }

  lemma EqualHeads(a: string, b: string)
    requires a != [] && b != [] && a[0] == b[0]
    ensures (exists i: nat :: Below(a, b, i)) <==> exists i: nat :: Below(a[1..], b[1..], i)
  {
    if i: nat :| Below(a, b, i) {
      assert i > 0;
      BelowTail(a, b, i - 1);
    }
    if i: nat :| Below(a[1..], b[1..], i) {
      BelowTail(a, b, i);
    }
  }

  lemma {:induction false} LeqTotal(a: string, b: string)
    ensures Leq(a, b) || Leq(b, a)
  {
    if a != [] && b != [] {
      LeqTotal(a[1..], b[1..]);
    }
  }

  lemma {:induction false} LeqReflexive(a: string)
    ensures Leq(a, a)
  {
    if a != [] {
      LeqReflexive(a[1..]);
    }
  }

  lemma {:induction false} LeqAntisymmetric(a: string, b: string)
    requires Leq(a, b) && Leq(b, a)
    ensures a == b
  {
    if a != [] && b != [] {
      LeqAntisymmetric(a[1..], b[1..]);
      assert a == [a[0]] + a[1..] && b == [b[0]] + b[1..];
    }
  }

  lemma {:induction false} LeqTransitive(a: string, b: string, c: string)
    requires Leq(a, b) && Leq(b, c)
    ensures Leq(a, c)
  {
    if a != [] && a[0] == b[0] == c[0] {
      LeqTransitive(a[1..], b[1..], c[1..]);
    }
  }

  ghost predicate Sorted(s: seq<string>) {
    forall i, j :: 0 <= i < j < |s| ==> Leq(s[i], s[j])
  }

  function Insert(x: string, s: seq<string>): (r: seq<string>)
    requires Sorted(s)
    ensures Sorted(r) && multiset(r) == multiset(s) + multiset{x}
  {
    if s == [] then [x]
    else if Leq(x, s[0]) then
      assert forall i :: 0 <= i < |s| ==> Leq(x, s[i]) by { LeqBelowSorted(x, s); }
      [x] + s
    else
      assert s == [s[0]] + s[1..];
      var rest := Insert(x, s[1..]);
      assert forall i :: 0 <= i < |rest| ==> Leq(s[0], rest[i]) by { HeadStaysLeast(x, s, rest); }
      [s[0]] + rest
  }

  lemma LeqBelowSorted(x: string, s: seq<string>)
    requires Sorted(s) && s != [] && Leq(x, s[0])
    ensures forall i :: 0 <= i < |s| ==> Leq(x, s[i])
  {
    forall i | 0 <= i < |s| ensures Leq(x, s[i]) {
      if i > 0 { LeqTransitive(x, s[0], s[i]); }
    }
  }

  lemma HeadStaysLeast(x: string, s: seq<string>, rest: seq<string>)
    requires Sorted(s) && s != [] && !Leq(x, s[0])
    requires multiset(rest) == multiset(s[1..]) + multiset{x}
    ensures forall i :: 0 <= i < |rest| ==> Leq(s[0], rest[i])
  {
    LeqTotal(x, s[0]);
    forall i | 0 <= i < |rest| ensures Leq(s[0], rest[i]) {
      assert rest[i] in multiset(rest);
      assert rest[i] == x || rest[i] in s[1..];
    }
  }

  /** `sort.Strings` */
  function Sort(s: seq<string>): (r: seq<string>)
    ensures Sorted(r) && multiset(r) == multiset(s)
  {
    if s == [] then []
    else
      assert s == [s[0]] + s[1..];
      Insert(s[0], Sort(s[1..]))
  }

  ghost predicate Distinct(s: seq<string>) {
    forall i, j :: 0 <= i < j < |s| ==> s[i] != s[j]
  }

  lemma {:induction false} InsertMembers(x: string, s: seq<string>)
    requires Sorted(s)
    ensures forall y :: y in Insert(x, s) <==> y in s || y == x
  {
    if s != [] && !Leq(x, s[0]) {
      assert s == [s[0]] + s[1..];
      InsertMembers(x, s[1..]);
      assert forall y :: y in Insert(x, s) <==> y == s[0] || y in Insert(x, s[1..]);
    }
  }

  lemma DistinctCons(x: string, s: seq<string>)
    requires Distinct(s) && x !in s
    ensures Distinct([x] + s)
  {
  }

  lemma {:induction false} InsertDistinct(x: string, s: seq<string>)
    requires Sorted(s) && Distinct(s) && x !in s
    ensures Distinct(Insert(x, s))
  {
    if s == [] {
    } else if Leq(x, s[0]) {
      DistinctCons(x, s);
    } else {
      InsertDistinct(x, s[1..]);
      InsertMembers(x, s[1..]);
      assert s[0] !in s[1..];
      DistinctCons(s[0], Insert(x, s[1..]));
    }
  }

  lemma {:induction false} SortDistinct(s: seq<string>)
    requires Distinct(s)
    ensures Distinct(Sort(s)) && forall y :: y in Sort(s) <==> y in s
  {
    if s != [] {
      assert s == [s[0]] + s[1..];
      SortDistinct(s[1..]);
      InsertDistinct(s[0], Sort(s[1..]));
      InsertMembers(s[0], Sort(s[1..]));
    }
  }
}
