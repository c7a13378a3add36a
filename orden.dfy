/** Listing and ordering helpers behind the ORM queries of the views:
    turning a finite set of row ids into a sequence, ordering rows by a key
    in non-increasing order (`order_by('-field')`), and finding a value
    outside a finite set (a fresh token). */
module Orden {

  /** A set of integers other than the empty set has an element. */
  lemma TieneElemento(s: set<int>)
    requires s != {}
    ensures exists x :: x in s
  {
    if forall x :: x !in s {
      assert false;
    }
  }

  /** `m` is the least element of `s`. */
  predicate EsMinimo(m: int, s: set<int>)
  {
    m in s && forall y :: y in s ==> m <= y
  }

  /** Every finite, non-empty set of integers has a least element. */
  lemma {:induction false} MinimoExiste(s: set<int>)
    requires s != {}
    ensures exists m :: EsMinimo(m, s)
  {
    TieneElemento(s);
    var z :| z in s;
    if s == {z} {
      assert EsMinimo(z, s);
    } else {
      var t := s - {z};
      MinimoExiste(t);
      var m :| EsMinimo(m, t);
      var w := if z < m then z else m;
      assert EsMinimo(w, s) by {
        forall y | y in s ensures w <= y {
          if y != z { assert y in t; }
        }
      }
    }
  }

  lemma MultisetSinUno(s: set<nat>, m: nat)
    requires m in s
    ensures multiset(s) == multiset(s - {m}) + multiset{m}
  {
    assert s == (s - {m}) + {m};
  }

  /** The elements of `s`, each exactly once (taken in ascending order). */
  function Listado(s: set<nat>): (r: seq<nat>)
    ensures multiset(r) == multiset(s)
  {
    if s == {} then []
    else
      MinimoExiste(s);
      var m :| EsMinimo(m, s);
      MultisetSinUno(s, m);
      [m] + Listado(s - {m})
  }

  /** `xs` is ordered by `clave`, largest first. */
  predicate Descendente<T>(xs: seq<T>, clave: T -> int)
  {
    forall i, j :: 0 <= i < j < |xs| ==> clave(xs[i]) >= clave(xs[j])
  }

  /** Every element of `ys` has a key no larger than `k`. */
  predicate Acotado<T>(ys: seq<T>, clave: T -> int, k: int)
  {
    forall i :: 0 <= i < |ys| ==> clave(ys[i]) <= k
  }

  lemma AcotadoPorMultiset<T>(ys: seq<T>, zs: seq<T>, clave: T -> int, k: int)
    requires multiset(ys) == multiset(zs) && Acotado(zs, clave, k)
    ensures Acotado(ys, clave, k)
  {
    forall i | 0 <= i < |ys| ensures clave(ys[i]) <= k {
      assert ys[i] in multiset(zs);
      var j :| 0 <= j < |zs| && zs[j] == ys[i];
    }
  }

  lemma DescendenteCons<T>(y: T, ys: seq<T>, clave: T -> int)
    requires Descendente(ys, clave) && Acotado(ys, clave, clave(y))
    ensures Descendente([y] + ys, clave)
  {
    forall i, j | 0 <= i < j < |[y] + ys| ensures clave(([y] + ys)[i]) >= clave(([y] + ys)[j]) {
      if i > 0 { assert ([y] + ys)[i] == ys[i - 1]; }
      assert ([y] + ys)[j] == ys[j - 1];
    }
  }

  /** Inserts `x` into a sequence already ordered by `clave`, largest first. */
  function Insertar<T>(x: T, xs: seq<T>, clave: T -> int): (r: seq<T>)
    requires Descendente(xs, clave)
    ensures Descendente(r, clave)
    ensures multiset(r) == multiset(xs) + multiset{x}
  {
    if xs == [] || clave(x) >= clave(xs[0]) then
      DescendenteCons(x, xs, clave);
      [x] + xs
    else
      var resto := Insertar(x, xs[1..], clave);
      assert xs == [xs[0]] + xs[1..];
      assert multiset(resto) == multiset(xs[1..] + [x]);
      AcotadoPorMultiset(resto, xs[1..] + [x], clave, clave(xs[0]));
      DescendenteCons(xs[0], resto, clave);
      [xs[0]] + resto
  }

  /** `order_by('-clave')`: the same elements, largest key first. */
  function OrdenarDesc<T>(xs: seq<T>, clave: T -> int): (r: seq<T>)
    ensures Descendente(r, clave)
    ensures multiset(r) == multiset(xs)
  {
    if xs == [] then []
    else
      assert xs == [xs[0]] + xs[1..];
      Insertar(xs[0], OrdenarDesc(xs[1..], clave), clave)
  }

  /** Every finite set of naturals has a strict upper bound, so some natural
      lies outside it. */
  lemma {:induction false} CotaSuperior(s: set<nat>) returns (b: nat)
    ensures forall x :: x in s ==> x < b
  {
    if s == {} {
      b := 0;
    } else {
      TieneElemento(s);
      var x :| x in s;
      var c := CotaSuperior(s - {x});
      b := if x < c then c else x + 1;
      forall y | y in s ensures y < b {
        if y != x { assert y in s - {x}; }
      }
    }
  }
}
