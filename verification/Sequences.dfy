/** Sequences as the code's lists: duplicates, search and extract, reversal and selection. */
module Sequences {

  ghost predicate NoDup<T>(xs: seq<T>) {
    xs == [] || (xs[0] !in xs[1..] && NoDup(xs[1..]))
  }

  /** List_searchExtract: the list without the first match. */
  function Remove1<T(==)>(xs: seq<T>, x: T): (ys: seq<T>)
    ensures x in xs ==> |ys| == |xs| - 1
    ensures x !in xs ==> ys == xs
  {
    if xs == [] then []
    else if xs[0] == x then xs[1..]
    else [xs[0]] + Remove1(xs[1..], x)
  }

  function Reverse<T>(xs: seq<T>): (ys: seq<T>)
    ensures |ys| == |xs|
  {
    if xs == [] then [] else Reverse(xs[1..]) + [xs[0]]
  }

  function Filter<T>(keep: T -> bool, xs: seq<T>): seq<T> {
    if xs == [] then []
    else if keep(xs[0]) then [xs[0]] + Filter(keep, xs[1..])
    else Filter(keep, xs[1..])
  }

  lemma {:induction false} FilterIn<T(!new)>(keep: T -> bool, xs: seq<T>)
    ensures forall y :: y in Filter(keep, xs) <==> y in xs && keep(y)
  {
    if xs != [] { FilterIn(keep, xs[1..]); }
  }

  function Take<T>(xs: seq<T>, n: int): seq<T> {
    if n >= |xs| then xs else if n <= 0 then [] else xs[..n]
  }

  function NotIn<T(==)>(ys: seq<T>): T -> bool {
    x => x !in ys
  }

  /** The elements of xs that are not in ys, in their order. */
  function Without<T(==)>(xs: seq<T>, ys: seq<T>): seq<T> {
    Filter(NotIn(ys), xs)
  }

  lemma {:induction false} FilterConcat<T(!new)>(keep: T -> bool, xs: seq<T>, ys: seq<T>)
    ensures Filter(keep, xs + ys) == Filter(keep, xs) + Filter(keep, ys)
  {
    if xs == [] {
      assert xs + ys == ys;
    } else {
      assert (xs + ys)[1..] == xs[1..] + ys;
      FilterConcat(keep, xs[1..], ys);
    }
  }

  lemma {:induction false} FilterAll<T(!new)>(keep: T -> bool, xs: seq<T>)
    requires forall x :: x in xs ==> keep(x)
    ensures Filter(keep, xs) == xs
  {
    if xs != [] { FilterAll(keep, xs[1..]); }
  }

  lemma {:induction false} FilterSame<T(!new)>(keep: T -> bool, keep2: T -> bool, xs: seq<T>)
    requires forall x :: x in xs ==> keep(x) == keep2(x)
    ensures Filter(keep, xs) == Filter(keep2, xs)
  {
    if xs != [] { FilterSame(keep, keep2, xs[1..]); }
  }

  lemma {:induction false} ReverseConcat<T>(xs: seq<T>, ys: seq<T>)
    ensures Reverse(xs + ys) == Reverse(ys) + Reverse(xs)
  {
    if xs == [] {
      assert xs + ys == ys;
    } else {
      assert (xs + ys)[1..] == xs[1..] + ys;
      ReverseConcat(xs[1..], ys);
    }
  }

  lemma {:induction false} ReverseTwice<T>(xs: seq<T>)
    ensures Reverse(Reverse(xs)) == xs
  {
    if xs != [] {
      ReverseConcat(Reverse(xs[1..]), [xs[0]]);
      ReverseTwice(xs[1..]);
      assert Reverse([xs[0]]) == [xs[0]];
    }
  }

  lemma {:induction false} ReverseAt<T>(xs: seq<T>, i: nat)
    requires i < |xs|
    ensures Reverse(xs)[i] == xs[|xs| - 1 - i]
  {
    if i < |xs| - 1 { ReverseAt(xs[1..], i); }
  }

  lemma {:induction false} NoDupAt<T>(xs: seq<T>, i: nat, j: nat)
    requires NoDup(xs) && i < j < |xs|
    ensures xs[i] != xs[j]
  {
    if i == 0 {
      assert xs[j] == xs[1..][j - 1];
    } else {
      NoDupAt(xs[1..], i - 1, j - 1);
    }
  }

  lemma {:induction false} NoDupCons<T>(x: T, xs: seq<T>)
    requires NoDup(xs) && x !in xs
    ensures NoDup([x] + xs)
  {
    assert ([x] + xs)[1..] == xs;
  }

  lemma {:induction false} NoDupSnoc<T>(xs: seq<T>, x: T)
    requires NoDup(xs) && x !in xs
    ensures NoDup(xs + [x])
  {
    if xs == [] {
      assert xs + [x] == [x];
    } else {
      NoDupSnoc(xs[1..], x);
      assert (xs + [x])[1..] == xs[1..] + [x];
    }
  }

  lemma {:induction false} InTail<T(!new)>(xs: seq<T>)
    requires xs != []
    ensures forall x :: x in xs <==> x == xs[0] || x in xs[1..]
  {
    assert xs == [xs[0]] + xs[1..];
  }

  /** A list without duplicates, without one of its elements. */
  lemma {:induction false} NoDupTakeOut<T(!new)>(xs: seq<T>, k: nat)
    requires NoDup(xs) && k < |xs|
    ensures NoDup(xs[..k] + xs[k + 1..])
    ensures forall x :: x in xs[..k] + xs[k + 1..] <==> x in xs && x != xs[k]
    ensures Remove1(xs, xs[k]) == xs[..k] + xs[k + 1..]
  {
    var ys := xs[..k] + xs[k + 1..];
    InTail(xs);
    if k == 0 {
      assert ys == xs[1..];
    } else {
      NoDupTakeOut(xs[1..], k - 1);
      assert xs[1..][k - 1] == xs[k] && ys[0] == xs[0];
      assert ys[1..] == xs[1..][..k - 1] + xs[1..][k..];
      InTail(ys);
      assert ys == [xs[0]] + ys[1..];
    }
  }

  lemma {:induction false} NoDupRemove1<T(!new)>(xs: seq<T>, x: T)
    requires NoDup(xs)
    ensures NoDup(Remove1(xs, x)) && forall y :: y in Remove1(xs, x) <==> y in xs && y != x
  {
    if xs != [] && xs[0] != x {
      NoDupRemove1(xs[1..], x);
      NoDupCons(xs[0], Remove1(xs[1..], x));
    }
  }

  lemma {:induction false} Remove1Sub<T(!new)>(xs: seq<T>, x: T)
    ensures forall y :: y in Remove1(xs, x) ==> y in xs
  {
    if xs != [] { Remove1Sub(xs[1..], x); }
  }

  lemma {:induction false} ReverseIn<T(!new)>(xs: seq<T>)
    ensures forall x :: x in Reverse(xs) <==> x in xs
  {
    if xs != [] { ReverseIn(xs[1..]); }
  }

  lemma {:induction false} WithoutRemove1<T(!new)>(xs: seq<T>, v: T, vs: seq<T>)
    requires NoDup(xs)
    ensures Without(Remove1(xs, v), vs) == Without(xs, [v] + vs)
  {
    if xs != [] {
      if xs[0] == v {
        FilterSame(NotIn(vs), NotIn([v] + vs), xs[1..]);
      } else {
        WithoutRemove1(xs[1..], v, vs);
        var r := Remove1(xs[1..], v);
        assert ([xs[0]] + r)[1..] == r;
      }
    }
  }

  lemma {:induction false} FilterNoDup<T(!new)>(keep: T -> bool, xs: seq<T>)
    requires NoDup(xs)
    ensures NoDup(Filter(keep, xs))
  {
    if xs != [] {
      FilterNoDup(keep, xs[1..]);
      FilterIn(keep, xs[1..]);
      NoDupCons(xs[0], Filter(keep, xs[1..]));
    }
  }

  lemma {:induction false} NoDupPrefix<T>(xs: seq<T>, n: nat)
    requires NoDup(xs) && n <= |xs|
    ensures NoDup(xs[..n])
  {
    if n > 0 {
      NoDupPrefix(xs[1..], n - 1);
      assert xs[..n][1..] == xs[1..][..n - 1];
    }
  }

  lemma {:induction false} ReverseNoDup<T(!new)>(xs: seq<T>)
    requires NoDup(xs)
    ensures NoDup(Reverse(xs)) && forall x :: x in Reverse(xs) <==> x in xs
  {
    if xs != [] {
      ReverseNoDup(xs[1..]);
      NoDupSnoc(Reverse(xs[1..]), xs[0]);
    }
  }

  lemma {:induction false} FilterShorter<T(!new)>(keep: T -> bool, xs: seq<T>)
    ensures |Filter(keep, xs)| <= |xs|
  {
    if xs != [] { FilterShorter(keep, xs[1..]); }
  }
}
