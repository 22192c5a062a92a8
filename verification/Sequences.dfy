/** Concatenating the images of a sequence's elements, and counting its elements. */
module Sequences {

  /** The images of `xs` under `f`, concatenated in order. */
  function Flat<A, B>(f: A -> seq<B>, xs: seq<A>): seq<B> {
    if xs == [] then [] else Flat(f, xs[..|xs| - 1]) + f(xs[|xs| - 1])
  }

  lemma FlatSnoc<A, B>(f: A -> seq<B>, xs: seq<A>, x: A)
    ensures Flat(f, xs + [x]) == Flat(f, xs) + f(x)
  {
    assert (xs + [x])[..|xs|] == xs;
  }

  lemma {:induction false} FlatConcat<A, B>(f: A -> seq<B>, xs: seq<A>, ys: seq<A>)
    ensures Flat(f, xs + ys) == Flat(f, xs) + Flat(f, ys)
  {
    if ys == [] {
      assert xs + ys == xs;
    } else {
      var init, last := ys[..|ys| - 1], ys[|ys| - 1];
      assert xs + ys == (xs + init) + [last];
      FlatConcat(f, xs, init);
      FlatSnoc(f, xs + init, last);
    }
  }

  lemma FlatPrefix<A, B>(f: A -> seq<B>, xs: seq<A>, n: nat)
    requires n <= |xs|
    ensures Flat(f, xs[..n]) <= Flat(f, xs)
  {
    FlatConcat(f, xs[..n], xs[n..]);
    assert xs[..n] + xs[n..] == xs;
  }

  lemma Flat1<A, B>(f: A -> seq<B>, a: A)
    ensures Flat(f, [a]) == f(a)
  {
    FlatSnoc(f, [], a);
    assert [] + [a] == [a];
  }

  lemma Flat2<A, B>(f: A -> seq<B>, a: A, b: A)
    ensures Flat(f, [a, b]) == f(a) + f(b)
  {
    Flat1(f, a);
    FlatSnoc(f, [a], b);
    assert [a] + [b] == [a, b];
  }

  lemma Flat3<A, B>(f: A -> seq<B>, a: A, b: A, c: A)
    ensures Flat(f, [a, b, c]) == f(a) + f(b) + f(c)
  {
    Flat2(f, a, b);
    FlatSnoc(f, [a, b], c);
    assert [a, b] + [c] == [a, b, c];
  }

  lemma Flat4<A, B>(f: A -> seq<B>, a: A, b: A, c: A, d: A)
    ensures Flat(f, [a, b, c, d]) == f(a) + f(b) + f(c) + f(d)
  {
    Flat3(f, a, b, c);
    FlatSnoc(f, [a, b, c], d);
    assert [a, b, c] + [d] == [a, b, c, d];
  }

  lemma Flat5<A, B>(f: A -> seq<B>, a: A, b: A, c: A, d: A, e: A)
    ensures Flat(f, [a, b, c, d, e]) == f(a) + f(b) + f(c) + f(d) + f(e)
  {
    Flat4(f, a, b, c, d);
    FlatSnoc(f, [a, b, c, d], e);
    assert [a, b, c, d] + [e] == [a, b, c, d, e];
  }

  /** Concatenated images that are all empty are empty. */
  lemma {:induction false} FlatEmpty<A, B>(f: A -> seq<B>, xs: seq<A>)
    requires forall i :: 0 <= i < |xs| ==> f(xs[i]) == []
    ensures Flat(f, xs) == []
  {
    if xs != [] { FlatEmpty(f, xs[..|xs| - 1]); }
  }

  /** What a concatenation holds, some image holds. */
  lemma {:induction false} FlatHas<A, B>(f: A -> seq<B>, xs: seq<A>, y: B)
    ensures y in Flat(f, xs) <==> exists k :: 0 <= k < |xs| && y in f(xs[k])
  {
    if xs != [] {
      var init := xs[..|xs| - 1];
      FlatHas(f, init, y);
      assert forall k :: 0 <= k < |init| ==> init[k] == xs[k];
    }
  }

  function Sum<A>(f: A -> nat, xs: seq<A>): nat {
    if xs == [] then 0 else Sum(f, xs[..|xs| - 1]) + f(xs[|xs| - 1])
  }

  lemma {:induction false} SumConcat<A>(f: A -> nat, xs: seq<A>, ys: seq<A>)
    ensures Sum(f, xs + ys) == Sum(f, xs) + Sum(f, ys)
  {
    if ys == [] {
      assert xs + ys == xs;
    } else {
      SumConcat(f, xs, ys[..|ys| - 1]);
      assert (xs + ys)[..|xs + ys| - 1] == xs + ys[..|ys| - 1];
    }
  }

  lemma SumOne<A>(f: A -> nat, x: A)
    ensures Sum(f, [x]) == f(x)
  {
    assert [x][..0] == [];
  }

  /** Replacing one element moves the sum by the difference of the two weights. */
  lemma SumUpdate<A>(f: A -> nat, xs: seq<A>, i: nat, y: A)
    requires i < |xs|
    ensures Sum(f, xs[i := y]) + f(xs[i]) == Sum(f, xs) + f(y)
  {
    var l, r := xs[..i], xs[i + 1..];
    assert xs == l + [xs[i]] + r;
    assert xs[i := y] == l + [y] + r;
    SumConcat(f, l + [xs[i]], r);
    SumConcat(f, l, [xs[i]]);
    SumConcat(f, l + [y], r);
    SumConcat(f, l, [y]);
    SumOne(f, xs[i]);
    SumOne(f, y);
  }

  /** Raising every weight by at most one raises the sum by at most the number of elements. */
  lemma {:induction false} SumRaised<A>(f: A -> nat, g: A -> nat, xs: seq<A>)
    requires forall k :: 0 <= k < |xs| ==> g(xs[k]) <= f(xs[k]) + 1
    ensures Sum(g, xs) <= Sum(f, xs) + |xs|
  {
    if xs != [] {
      var init := xs[..|xs| - 1];
      assert forall k :: 0 <= k < |init| ==> init[k] == xs[k];
      SumRaised(f, g, init);
    }
  }
}
