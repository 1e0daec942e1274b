/**
 * The order total: a left fold over the validated lines adding
 * quantity times price to an accumulator that starts at 0, then scaled
 * from dollars to the cents the payment gateway takes.
 */
module Pricing {
  import opened Catalog

  const CentsPerDollar := 100

  /** What one validated line contributes, in dollars. */
  function LineAmount(line: PricedLine): (r: int)
  {
    line.qty * line.price
  }

  /** The reducer, applied left to right starting from `acc`. */
  function Reduce(lines: seq<PricedLine>, acc: int): (r: int)
    decreases |lines|
  {
    if lines == [] then acc else Reduce(lines[1..], LineAmount(lines[0]) + acc)
  }

  /** Reference definition: the plain sum of the line amounts. */
  ghost function Sum(lines: seq<PricedLine>): (r: int)
    decreases |lines|
  {
    if lines == [] then 0 else LineAmount(lines[0]) + Sum(lines[1..])
  }

  lemma {:induction false} ReduceIsSum(lines: seq<PricedLine>, acc: int)
    ensures Reduce(lines, acc) == acc + Sum(lines)
    decreases |lines|
  {
    if lines != [] {
      ReduceIsSum(lines[1..], LineAmount(lines[0]) + acc);
    }
  }

  /** The amount charged, in cents. */
  function Total(lines: seq<PricedLine>): (r: int)
    ensures r == CentsPerDollar * Sum(lines)
    ensures lines == [] ==> r == 0
  {
    ReduceIsSum(lines, 0);
    Reduce(lines, 0) * CentsPerDollar
  }

  lemma {:induction false} SumAppend(a: seq<PricedLine>, b: seq<PricedLine>)
    ensures Sum(a + b) == Sum(a) + Sum(b)
    decreases |a|
  {
    if a != [] {
      assert (a + b)[1..] == a[1..] + b;
      SumAppend(a[1..], b);
    } else {
      assert a + b == b;
    }
  }

  /** Pushing one more line adds that line's amount, in cents. */
  lemma TotalPush(lines: seq<PricedLine>, line: PricedLine)
    ensures Total(lines + [line]) == Total(lines) + CentsPerDollar * LineAmount(line)
  {
    SumAppend(lines, [line]);
    assert [line][1..] == [];
  }

  /** Removing line j takes exactly that line out of the multiset. */
  lemma MultisetRemoveAt(s: seq<PricedLine>, j: nat)
    requires j < |s|
    ensures multiset(s[..j] + s[j + 1..]) == multiset(s) - multiset{s[j]}
  {
    assert s == s[..j] + [s[j]] + s[j + 1..];
  }

  /** Removing line j takes exactly that line's amount out of the sum. */
  lemma SumRemoveAt(s: seq<PricedLine>, j: nat)
    requires j < |s|
    ensures Sum(s) == LineAmount(s[j]) + Sum(s[..j] + s[j + 1..])
  {
    assert s == s[..j] + ([s[j]] + s[j + 1..]);
    SumAppend(s[..j], [s[j]] + s[j + 1..]);
    SumAppend(s[..j], s[j + 1..]);
    assert ([s[j]] + s[j + 1..])[1..] == s[j + 1..];
  }

  lemma {:induction false} SumPermutation(a: seq<PricedLine>, b: seq<PricedLine>)
    requires multiset(a) == multiset(b)
    ensures Sum(a) == Sum(b)
    decreases |a|
  {
    if a == [] {
      EmptyMultiset(b);
    } else {
      var j := IndexOf(b, a[0]);
      RemoveMatching(a, b, j);
      SumPermutation(a[1..], b[..j] + b[j + 1..]);
      SumRemoveAt(b, j);
    }
  }

  /** Taking the first line of `a` and a matching line of `b` out keeps the two multisets equal. */
  lemma RemoveMatching(a: seq<PricedLine>, b: seq<PricedLine>, j: nat)
    requires multiset(a) == multiset(b) && a != [] && j < |b| && b[j] == a[0]
    ensures multiset(a[1..]) == multiset(b[..j] + b[j + 1..])
  {
    MultisetRemoveAt(a, 0);
    MultisetRemoveAt(b, j);
    assert a[..0] + a[1..] == a[1..];
  }

  lemma EmptyMultiset(s: seq<PricedLine>)
    requires multiset(s) == multiset{}
    ensures s == []
  {
    assert |s| == |multiset(s)|;
  }

  /** A line that occurs in `s` occurs at some index. */
  lemma IndexOf(s: seq<PricedLine>, x: PricedLine) returns (j: nat)
    requires x in multiset(s)
    ensures j < |s| && s[j] == x
  {
    assert x in s;
    j :| 0 <= j < |s| && s[j] == x;
  }

  /** The total does not depend on the order the validated lines were pushed in. */
  lemma TotalPermutation(a: seq<PricedLine>, b: seq<PricedLine>)
    requires multiset(a) == multiset(b)
    ensures Total(a) == Total(b)
  {
    SumPermutation(a, b);
  }

  lemma {:induction false} SumNonNegative(lines: seq<PricedLine>)
    requires forall i :: 0 <= i < |lines| ==> lines[i].price >= 0 && lines[i].qty >= 0
    ensures Sum(lines) >= 0
    decreases |lines|
  {
    if lines != [] {
      SumNonNegative(lines[1..]);
    }
  }

  /** With non-negative prices and quantities the charge is never negative. */
  lemma TotalNonNegative(lines: seq<PricedLine>)
    requires forall i :: 0 <= i < |lines| ==> lines[i].price >= 0 && lines[i].qty >= 0
    ensures Total(lines) >= 0
  {
    SumNonNegative(lines);
  }

  /**
   * The quantity is trusted as sent: a line with a negative quantity and
   * a positive price lowers the charge for the rest of the cart.
   */
  lemma NegativeQuantityLowersTotal(lines: seq<PricedLine>, line: PricedLine)
    requires line.qty < 0 && line.price > 0
    ensures Total(lines + [line]) < Total(lines)
  {
    TotalPush(lines, line);
  }
}
