/** JavaScript strings as sequences of code units: their order, sorted lists, decimal numerals. */
module Texts {
  import opened Fnv

  /** An ASCII literal as code units. */
  function Ascii(s: string): (t: Text)
    ensures |t| == |s|
  {
    seq(|s|, i requires 0 <= i < |s| => (s[i] as int) % 0x1_0000)
  }

  // ---------------------------------------------------------------- order

  /** Comparison of strings by code unit, strict. */
  predicate Less(a: Text, b: Text) {
    if b == [] then false
    else if a == [] then true
    else a[0] < b[0] || (a[0] == b[0] && Less(a[1..], b[1..]))
  }

  lemma {:induction false} LessTotal(a: Text, b: Text)
    ensures Less(a, b) || a == b || Less(b, a)
    ensures !(Less(a, b) && Less(b, a)) && !Less(a, a)
    decreases |a|
  {
    if a != [] && b != [] && a[0] == b[0] {
      LessTotal(a[1..], b[1..]);
      assert a == [a[0]] + a[1..] && b == [b[0]] + b[1..];
    }
    if a != [] {
      LessTotal(a[1..], a[1..]);
    }
  }

  lemma {:induction false} LessTransitive(a: Text, b: Text, c: Text)
    requires Less(a, b) && Less(b, c)
    ensures Less(a, c)
    decreases |a|
  {
    if a != [] && a[0] == b[0] == c[0] {
      LessTransitive(a[1..], b[1..], c[1..]);
    }
  }

  predicate IsLeast(m: Text, bag: multiset<Text>) {
    m in bag && forall x :: x in bag ==> x == m || Less(m, x)
  }

  lemma {:induction false} LeastExists(bag: multiset<Text>)
    requires bag != multiset{}
    ensures exists m :: IsLeast(m, bag)
    decreases |bag|
  {
    var x :| x in bag;
    var rest := bag - multiset{x};
    if rest == multiset{} {
      assert bag == multiset{x};
      assert IsLeast(x, bag);
    } else {
      LeastExists(rest);
      var m :| IsLeast(m, rest);
      LessTotal(x, m);
      var least := if Less(x, m) then x else m;
      forall y | y in bag ensures y == least || Less(least, y) {
        if y != x { assert y in rest; }
        if Less(x, m) && y != m && y != x { LessTransitive(x, m, y); }
      }
      assert IsLeast(least, bag);
    }
  }

  /** The least string of a non-empty collection. */
  function Least(bag: multiset<Text>): (m: Text)
    requires bag != multiset{}
    ensures IsLeast(m, bag)
  {
    LeastExists(bag);
    assert forall m, n :: IsLeast(m, bag) && IsLeast(n, bag) ==> m == n by {
      forall m, n | IsLeast(m, bag) && IsLeast(n, bag) ensures m == n { LessTotal(m, n); }
    }
    var m :| m in bag && IsLeast(m, bag);
    m
  }

  /** No element comes before a smaller one. */
  ghost predicate Ascending(s: seq<Text>) {
    forall i, j :: 0 <= i < j < |s| ==> s[i] == s[j] || Less(s[i], s[j])
  }

  lemma AscendingCons(m: Text, s: seq<Text>)
    requires Ascending(s) && IsLeast(m, multiset{m} + multiset(s))
    ensures Ascending([m] + s)
  {
    forall i, j | 0 <= i < j < |s| + 1
      ensures var t := [m] + s; t[i] == t[j] || Less(t[i], t[j])
    {
      assert s[j - 1] in multiset(s);
    }
  }

  /** `list.sort()` of a list with these elements. */
  function Sorted(bag: multiset<Text>): (s: seq<Text>)
    ensures multiset(s) == bag && Ascending(s)
    decreases |bag|
  {
    if bag == multiset{} then []
    else
      var m := Least(bag);
      var rest := Sorted(bag - multiset{m});
      assert multiset{m} + multiset(rest) == bag;
      AscendingCons(m, rest);
      [m] + rest
  }

  /** Sorting forgets exactly the order of the list. */
  lemma SortedForgetsOrder(a: seq<Text>, b: seq<Text>)
    ensures Sorted(multiset(a)) == Sorted(multiset(b)) <==> multiset(a) == multiset(b)
  {
  }

  // ---------------------------------------------------------------- decimal numerals

  function Digit(n: nat): Unit
    requires n < 10
  {
    0x30 + n
  }

  function Decimal(n: nat): (t: Text)
    ensures t != [] && forall i :: 0 <= i < |t| ==> IsDigit(t[i])
  {
    if n < 10 then [Digit(n)] else Decimal(n / 10) + [Digit(n % 10)]
  }

  predicate IsDigit(c: Unit) { 0x30 <= c <= 0x39 }

  function Undecimal(t: Text): nat
    decreases |t|
  {
    if t == [] then 0
    else
      var last := t[|t| - 1];
      10 * Undecimal(t[..|t| - 1]) + (if IsDigit(last) then last - 0x30 else 0)
  }

  lemma {:induction false} DecimalReads(n: nat)
    ensures Undecimal(Decimal(n)) == n
  {
    var t := Decimal(n);
    if n < 10 {
      assert t[..|t| - 1] == [];
    } else {
      assert t[..|t| - 1] == Decimal(n / 10);
      DecimalReads(n / 10);
    }
  }

  lemma DecimalInjective(m: nat, n: nat)
    requires Decimal(m) == Decimal(n)
    ensures m == n
  {
    DecimalReads(m);
    DecimalReads(n);
  }
}
