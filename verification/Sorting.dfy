/** The contract of the built-in stable sort, and the order of strings. */
module Sorting {

  // ----- Strings, compared character by character -----

  predicate StringLeq(a: string, b: string)
    decreases |a|
  {
    if a == [] then true
    else if b == [] then false
    else if a[0] != b[0] then a[0] < b[0]
    else StringLeq(a[1..], b[1..])
  }

  lemma {:induction false} StringTotal(a: string, b: string)
    ensures StringLeq(a, b) || StringLeq(b, a)
    decreases |a|
  {
    if a != [] && b != [] && a[0] == b[0] {
      StringTotal(a[1..], b[1..]);
    }
  }

  lemma {:induction false} StringAntisymmetric(a: string, b: string)
    requires StringLeq(a, b) && StringLeq(b, a)
    ensures a == b
    decreases |a|
  {
    if a != [] && b != [] {
      StringAntisymmetric(a[1..], b[1..]);
      assert a == [a[0]] + a[1..] && b == [b[0]] + b[1..];
    }
  }

  lemma {:induction false} StringTransitive(a: string, b: string, c: string)
    requires StringLeq(a, b) && StringLeq(b, c)
    ensures StringLeq(a, c)
    decreases |a|
  {
    if a != [] && b != [] && c != [] && a[0] == b[0] == c[0] {
      StringTransitive(a[1..], b[1..], c[1..]);
    }
  }

  // ----- Stable sorting -----

  /** Put `x` in front of everything it does not exceed. */
  function InsertBy<T>(x: T, xs: seq<T>, leq: (T, T) -> bool): seq<T> {
    if xs == [] || leq(x, xs[0]) then [x] + xs else [xs[0]] + InsertBy(x, xs[1..], leq)
  }

  function SortBy<T>(xs: seq<T>, leq: (T, T) -> bool): seq<T> {
    if xs == [] then [] else InsertBy(xs[0], SortBy(xs[1..], leq), leq)
  }

  ghost predicate TotalPreorder<T(!new)>(leq: (T, T) -> bool) {
    && (forall a, b :: leq(a, b) || leq(b, a))
    && (forall a, b, c :: leq(a, b) && leq(b, c) ==> leq(a, c))
  }

  ghost predicate Ordered<T>(xs: seq<T>, leq: (T, T) -> bool) {
    forall i, j :: 0 <= i < j < |xs| ==> leq(xs[i], xs[j])
  }

  lemma ConsMultiset<T>(x: T, xs: seq<T>)
    ensures multiset([x] + xs) == multiset{x} + multiset(xs)
  {
  }

  lemma {:induction false} InsertPermutes<T>(x: T, xs: seq<T>, leq: (T, T) -> bool)
    ensures multiset(InsertBy(x, xs, leq)) == multiset{x} + multiset(xs)
  {
    if xs == [] || leq(x, xs[0]) {
      ConsMultiset(x, xs);
    } else {
      InsertPermutes(x, xs[1..], leq);
      ConsMultiset(xs[0], InsertBy(x, xs[1..], leq));
      ConsMultiset(xs[0], xs[1..]);
      assert xs == [xs[0]] + xs[1..];
    }
  }

  /** Sorting loses and invents nothing. */
  lemma {:induction false} SortPermutes<T>(xs: seq<T>, leq: (T, T) -> bool)
    ensures multiset(SortBy(xs, leq)) == multiset(xs)
    ensures |SortBy(xs, leq)| == |xs|
  {
    if xs != [] {
      SortPermutes(xs[1..], leq);
      InsertPermutes(xs[0], SortBy(xs[1..], leq), leq);
      ConsMultiset(xs[0], xs[1..]);
      assert xs == [xs[0]] + xs[1..];
    }
    assert |multiset(SortBy(xs, leq))| == |SortBy(xs, leq)|;
    assert |multiset(xs)| == |xs|;
  }

  lemma {:induction false} InsertOrders<T(!new)>(x: T, xs: seq<T>, leq: (T, T) -> bool)
    requires TotalPreorder(leq) && Ordered(xs, leq)
    ensures Ordered(InsertBy(x, xs, leq), leq)
  {
    if xs != [] {
      var rest := InsertBy(x, xs[1..], leq);
      if leq(x, xs[0]) {
        assert forall j :: 0 <= j < |xs| ==> leq(x, xs[j]);
      } else {
        InsertOrders(x, xs[1..], leq);
        InsertPermutes(x, xs[1..], leq);
        forall j | 0 <= j < |rest| ensures leq(xs[0], rest[j]) {
          assert rest[j] in multiset(rest);
          assert rest[j] == x || rest[j] in multiset(xs[1..]);
        }
      }
    }
  }

  lemma {:induction false} SortOrders<T(!new)>(xs: seq<T>, leq: (T, T) -> bool)
    requires TotalPreorder(leq)
    ensures Ordered(SortBy(xs, leq), leq)
  {
    if xs != [] {
      SortOrders(xs[1..], leq);
      InsertOrders(xs[0], SortBy(xs[1..], leq), leq);
    }
  }

  lemma TailMultiset(xs: seq<string>)
    requires xs != []
    ensures multiset(xs[1..]) == multiset(xs) - multiset{xs[0]}
  {
    ConsMultiset(xs[0], xs[1..]);
    assert xs == [xs[0]] + xs[1..];
  }

  /** Two ordered arrangements of the same strings are the same. */
  lemma {:induction false} OrderedIsCanonical(xs: seq<string>, ys: seq<string>)
    requires Ordered(xs, StringLeq) && Ordered(ys, StringLeq) && multiset(xs) == multiset(ys)
    ensures xs == ys
    decreases |xs|
  {
    assert |multiset(xs)| == |xs| && |multiset(ys)| == |ys|;
    if xs != [] {
      FirstIsLeast(xs, ys);
      FirstIsLeast(ys, xs);
      StringAntisymmetric(xs[0], ys[0]);
      TailMultiset(xs);
      TailMultiset(ys);
      OrderedIsCanonical(xs[1..], ys[1..]);
    }
  }

  lemma FirstIsLeast(xs: seq<string>, ys: seq<string>)
    requires Ordered(xs, StringLeq) && multiset(xs) == multiset(ys) && xs != [] && ys != []
    ensures StringLeq(xs[0], ys[0])
  {
    assert ys[0] in multiset(xs);
    var i :| 0 <= i < |xs| && xs[i] == ys[0];
    StringTotal(ys[0], ys[0]);
  }

  lemma StringsAreOrdered()
    ensures TotalPreorder(StringLeq)
  {
    forall a: string, b: string ensures StringLeq(a, b) || StringLeq(b, a) {
      StringTotal(a, b);
    }
    forall a: string, b: string, c: string | StringLeq(a, b) && StringLeq(b, c) ensures StringLeq(a, c) {
      StringTransitive(a, b, c);
    }
  }

  // ----- What depends only on the multiset of a sequence -----

  function MapSeq<A, B>(xs: seq<A>, f: A -> B): (r: seq<B>)
    ensures |r| == |xs|
    ensures forall i :: 0 <= i < |xs| ==> r[i] == f(xs[i])
  {
    seq(|xs|, i requires 0 <= i < |xs| => f(xs[i]))
  }

  function SumBy<A>(xs: seq<A>, f: A -> int): int {
    if xs == [] then 0 else f(xs[0]) + SumBy(xs[1..], f)
  }

  lemma RemoveAt<A>(ys: seq<A>, x: A) returns (j: nat, rest: seq<A>)
    requires x in multiset(ys)
    ensures j < |ys| && ys[j] == x && rest == ys[..j] + ys[j + 1..] && ys == ys[..j] + [x] + ys[j + 1..]
    ensures multiset(ys) == multiset{x} + multiset(rest)
  {
    j :| 0 <= j < |ys| && ys[j] == x;
    rest := ys[..j] + ys[j + 1..];
    assert ys == ys[..j] + [x] + ys[j + 1..];
  }

  lemma HeadRest<A>(xs: seq<A>)
    requires xs != []
    ensures multiset(xs) == multiset{xs[0]} + multiset(xs[1..]) && xs[0] in multiset(xs)
  {
    ConsMultiset(xs[0], xs[1..]);
    assert xs == [xs[0]] + xs[1..];
  }

  lemma CancelOne<A>(x: A, a: multiset<A>, b: multiset<A>)
    requires multiset{x} + a == multiset{x} + b
    ensures a == b
  {
    assert a == (multiset{x} + a) - multiset{x};
    assert b == (multiset{x} + b) - multiset{x};
  }

  lemma {:induction false} SumSplit<A>(xs: seq<A>, ys: seq<A>, f: A -> int)
    ensures SumBy(xs + ys, f) == SumBy(xs, f) + SumBy(ys, f)
  {
    if xs == [] {
      assert xs + ys == ys;
    } else {
      assert (xs + ys)[1..] == xs[1..] + ys;
      SumSplit(xs[1..], ys, f);
    }
  }

  lemma MiddleMultiset<B>(x: seq<B>, y: B, z: seq<B>)
    ensures multiset(x + [y] + z) == multiset{y} + multiset(x + z)
  {
  }

  lemma MapSplit<A, B>(xs: seq<A>, ys: seq<A>, f: A -> B)
    ensures MapSeq(xs + ys, f) == MapSeq(xs, f) + MapSeq(ys, f)
  {
  }

  lemma MapAround<A, B>(before: seq<A>, x: A, after: seq<A>, f: A -> B)
    ensures multiset(MapSeq(before + [x] + after, f)) == multiset{f(x)} + multiset(MapSeq(before + after, f))
  {
    MapSplit(before + [x], after, f);
    MapSplit(before, [x], f);
    MapSplit(before, after, f);
    assert MapSeq([x], f) == [f(x)];
    MiddleMultiset(MapSeq(before, f), f(x), MapSeq(after, f));
  }

  lemma {:induction false} SumOfSame<A>(xs: seq<A>, ys: seq<A>, f: A -> int)
    requires multiset(xs) == multiset(ys)
    ensures SumBy(xs, f) == SumBy(ys, f)
    decreases |xs|
  {
    assert |multiset(xs)| == |xs| && |multiset(ys)| == |ys|;
    if xs != [] {
      HeadRest(xs);
      var j, rest := RemoveAt(ys, xs[0]);
      CancelOne(xs[0], multiset(xs[1..]), multiset(rest));
      SumOfSame(xs[1..], rest, f);
      SumSplit(ys[..j] + [xs[0]], ys[j + 1..], f);
      SumSplit(ys[..j], [xs[0]], f);
      SumSplit(ys[..j], ys[j + 1..], f);
      assert [xs[0]][1..] == [];
    }
  }

  lemma {:induction false} MapOfSame<A, B>(xs: seq<A>, ys: seq<A>, f: A -> B)
    requires multiset(xs) == multiset(ys)
    ensures multiset(MapSeq(xs, f)) == multiset(MapSeq(ys, f))
    decreases |xs|
  {
    assert |multiset(xs)| == |xs| && |multiset(ys)| == |ys|;
    if xs != [] {
      HeadRest(xs);
      var j, rest := RemoveAt(ys, xs[0]);
      CancelOne(xs[0], multiset(xs[1..]), multiset(rest));
      MapOfSame(xs[1..], rest, f);
      MapAround(ys[..j], xs[0], ys[j + 1..], f);
      MapAround([], xs[0], xs[1..], f);
      assert [] + [xs[0]] + xs[1..] == xs && [] + xs[1..] == xs[1..];
    }
  }
}
