/** Sorting by (key, id), as std::sort is used on candidates and enemies: ids make the order total. */
module Sorting {

  datatype Keyed<T> = Keyed(key: real, id: nat, value: T)

  predicate Before<T>(a: Keyed<T>, b: Keyed<T>)
  {
    a.key < b.key || (a.key == b.key && a.id < b.id)
  }

  ghost predicate StrictlySorted<T>(xs: seq<Keyed<T>>)
  {
    forall i, j :: 0 <= i < j < |xs| ==> Before(xs[i], xs[j])
  }

  ghost predicate DistinctIds<T>(xs: seq<Keyed<T>>)
  {
    forall i, j :: 0 <= i < j < |xs| ==> xs[i].id != xs[j].id
  }

  ghost predicate SameElements<T(!new)>(xs: seq<Keyed<T>>, ys: seq<Keyed<T>>)
  {
    |xs| == |ys| && forall x :: x in xs <==> x in ys
  }

  // Insertion sort; only the result matters.
  method Sort<T(!new)>(xs: seq<Keyed<T>>) returns (ys: seq<Keyed<T>>)
    requires DistinctIds(xs)
    ensures StrictlySorted(ys) && SameElements(xs, ys)
  {
    ys := [];
    for i := 0 to |xs|
      invariant StrictlySorted(ys) && SameElements(xs[..i], ys)
    {
      var x := xs[i];
      assert forall y | y in ys :: y.id != x.id;
      ghost var before := ys;
      ys := Insert(ys, x);
      assert xs[..i + 1] == xs[..i] + [x];
    }
    assert xs[..|xs|] == xs;
  }

  method Insert<T(!new)>(ys: seq<Keyed<T>>, x: Keyed<T>) returns (zs: seq<Keyed<T>>)
    requires StrictlySorted(ys) && forall y | y in ys :: y.id != x.id
    ensures StrictlySorted(zs) && |zs| == |ys| + 1
    ensures forall z :: z in zs <==> z == x || z in ys
  {
    var k := 0;
    while k < |ys| && Before(ys[k], x)
      invariant 0 <= k <= |ys|
      invariant forall i :: 0 <= i < k ==> Before(ys[i], x)
    {
      k := k + 1;
    }
    zs := ys[..k] + [x] + ys[k..];
    assert forall i :: k <= i < |ys| ==> Before(x, ys[i]) by {
      if k < |ys| {
        assert ys[k] in ys && Before(x, ys[k]);
        assert forall i :: k < i < |ys| ==> Before(ys[k], ys[i]);
      }
    }
    assert ys == ys[..k] + ys[k..];
  }

  /** The sorted list depends only on the elements: two strictly sorted lists of the same elements are equal. */
  lemma {:induction false} SortedIsUnique<T(!new)>(xs: seq<Keyed<T>>, ys: seq<Keyed<T>>)
    requires StrictlySorted(xs) && StrictlySorted(ys) && forall x :: x in xs <==> x in ys
    ensures xs == ys
    decreases |xs|
  {
    assert ys != [] ==> ys[0] in ys;
    if xs == [] {
    } else {
      assert xs[0] in ys && ys[0] in xs;
      assert xs[0] == ys[0];
      forall x ensures x in xs[1..] <==> x in ys[1..] { TailMembers(xs, x); TailMembers(ys, x); }
      SortedIsUnique(xs[1..], ys[1..]);
      assert xs == [xs[0]] + xs[1..] && ys == [ys[0]] + ys[1..];
    }
  }

  lemma TailMembers<T(!new)>(xs: seq<Keyed<T>>, x: Keyed<T>)
    requires StrictlySorted(xs) && xs != []
    ensures x in xs[1..] <==> x in xs && x != xs[0]
  {
  }
}
