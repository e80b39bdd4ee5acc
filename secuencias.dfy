/** Sequence operations the ledger builds on: the order-preserving filter that
    Java's `stream().filter(...)` and `removeIf` perform, `findFirst`, sums,
    counting, and the descending sort of `sorted(Collections.reverseOrder())`. */
module Secuencias {
  import opened Comun

  /** The positions `i` of `ks` where `p(ks[i])` holds, in increasing order. */
  function Indices<K>(ks: seq<K>, p: K -> bool): (r: seq<nat>)
    ensures |r| <= |ks|
    ensures forall j :: 0 <= j < |r| ==> r[j] < |ks| && p(ks[r[j]])
    ensures forall j, l :: 0 <= j < l < |r| ==> r[j] < r[l]
    ensures forall i :: 0 <= i < |ks| && p(ks[i]) ==> i in r
    ensures |r| == |ks| <==> forall i :: 0 <= i < |ks| ==> p(ks[i])
  {
    if ks == [] then []
    else
      var n := |ks| - 1;
      var previos := Indices(ks[..n], p);
      if p(ks[n]) then previos + [n] else previos
  }

  /** The elements `xs[i]` whose key `ks[i]` satisfies `p`, in their original
      order: a stream filter that tests each element through its key. */
  function Seleccionar<T, K>(xs: seq<T>, ks: seq<K>, p: K -> bool): (r: seq<T>)
    requires |xs| == |ks|
    ensures |r| == |Indices(ks, p)|
    ensures forall j :: 0 <= j < |r| ==> r[j] == xs[Indices(ks, p)[j]]
  {
    if xs == [] then []
    else
      var n := |xs| - 1;
      var previos := Seleccionar(xs[..n], ks[..n], p);
      if p(ks[n]) then previos + [xs[n]] else previos
  }

  /** `stream().filter(p)` and `removeIf(not p)`: the elements satisfying `p`,
      in order. */
  function Filtrar<T>(xs: seq<T>, p: T -> bool): (r: seq<T>)
    ensures |r| <= |xs|
    ensures forall j :: 0 <= j < |r| ==> r[j] in xs && p(r[j])
    ensures forall i :: 0 <= i < |xs| && p(xs[i]) ==> xs[i] in r
    ensures |r| == |xs| <==> forall i :: 0 <= i < |xs| ==> p(xs[i])
    ensures |r| == |Indices(xs, p)| && forall j :: 0 <= j < |r| ==> r[j] == xs[Indices(xs, p)[j]]
  {
    var r := Seleccionar(xs, xs, p);
    assert forall i :: 0 <= i < |xs| && p(xs[i]) ==> xs[i] in r by {
      forall i | 0 <= i < |xs| && p(xs[i]) ensures xs[i] in r {
        var j :| 0 <= j < |Indices(xs, p)| && Indices(xs, p)[j] == i;
        assert r[j] == xs[i];
      }
    }
    r
  }

  /** Membership in a selection: every kept element is an input element whose
      key passes, and every input element whose key passes is kept. */
  lemma SeleccionarMiembros<T, K>(xs: seq<T>, ks: seq<K>, p: K -> bool)
    requires |xs| == |ks|
    ensures forall j :: 0 <= j < |Seleccionar(xs, ks, p)| ==>
              exists i :: 0 <= i < |xs| && p(ks[i]) && Seleccionar(xs, ks, p)[j] == xs[i]
    ensures forall i :: 0 <= i < |xs| && p(ks[i]) ==> xs[i] in Seleccionar(xs, ks, p)
  {
    var ix := Indices(ks, p);
    var r := Seleccionar(xs, ks, p);
    forall j | 0 <= j < |r| ensures exists i :: 0 <= i < |xs| && p(ks[i]) && r[j] == xs[i] {
      var i := ix[j];
      assert 0 <= i < |xs| && p(ks[i]) && r[j] == xs[i];
    }
    forall i | 0 <= i < |xs| && p(ks[i]) ensures xs[i] in r {
      assert i in ix;
      var j :| 0 <= j < |ix| && ix[j] == i;
      assert r[j] == xs[i];
    }
  }
  /** A filter keeps the relative order of what it keeps: two kept elements
      appear in the result in the order of their positions in the input. */
  lemma {:induction false} SeleccionarConservaOrden<T, K>(xs: seq<T>, ks: seq<K>, p: K -> bool, j: nat, l: nat)
    requires |xs| == |ks| && j < l < |Seleccionar(xs, ks, p)|
    ensures exists a, b :: 0 <= a < b < |xs| && p(ks[a]) && p(ks[b]) &&
              Seleccionar(xs, ks, p)[j] == xs[a] && Seleccionar(xs, ks, p)[l] == xs[b]
  {
    var ix := Indices(ks, p);
    assert Seleccionar(xs, ks, p)[j] == xs[ix[j]] && Seleccionar(xs, ks, p)[l] == xs[ix[l]];
  }

  /** The position of the first element satisfying `p`, or `|xs|` if none does. */
  function PosicionPrimero<T>(xs: seq<T>, p: T -> bool): (i: nat)
    ensures i <= |xs|
    ensures forall j :: 0 <= j < i ==> !p(xs[j])
    ensures i < |xs| ==> p(xs[i])
  {
    if xs == [] || p(xs[0]) then 0 else 1 + PosicionPrimero(xs[1..], p)
  }

  /** Filtering keeps distinct keys distinct. */
  lemma FiltrarConservaClavesUnicas<T, U>(xs: seq<T>, p: T -> bool, clave: T -> U)
    requires forall i, j :: 0 <= i < j < |xs| ==> clave(xs[i]) != clave(xs[j])
    ensures forall i, j :: 0 <= i < j < |Filtrar(xs, p)| ==> clave(Filtrar(xs, p)[i]) != clave(Filtrar(xs, p)[j])
  {
    var ix := Indices(xs, p);
    assert Filtrar(xs, p) == Seleccionar(xs, xs, p);
    forall i, j | 0 <= i < j < |Filtrar(xs, p)|
      ensures clave(Filtrar(xs, p)[i]) != clave(Filtrar(xs, p)[j])
    {
      assert Filtrar(xs, p)[i] == xs[ix[i]] && Filtrar(xs, p)[j] == xs[ix[j]];
    }
  }

  /** Appending two elements one after the other appends the pair. */
  lemma AgregarDos<T>(s: seq<T>, a: T, b: T)
    ensures s + [a] + [b] == s + [a, b]
  {
  }

  /** `stream().filter(p).findFirst()`: the first element satisfying `p`. */
  function Primero<T>(xs: seq<T>, p: T -> bool): (r: Option<T>)
    ensures r.None? <==> forall i :: 0 <= i < |xs| ==> !p(xs[i])
    ensures r.Some? ==> exists i :: 0 <= i < |xs| && xs[i] == r.value && p(xs[i]) &&
                                    forall j :: 0 <= j < i ==> !p(xs[j])
  {
    var i := PosicionPrimero(xs, p);
    if i < |xs| then Some(xs[i]) else None
  }

  /** `mapToDouble(...).sum()`. */
  function Suma(s: seq<real>): real {
    if s == [] then 0.0 else s[0] + Suma(s[1..])
  }

  /** The sum of a sequence of counts. */
  function SumaNat(s: seq<nat>): nat {
    if s == [] then 0 else s[0] + SumaNat(s[1..])
  }

  lemma {:induction false} SumaConcat(a: seq<real>, b: seq<real>)
    ensures Suma(a + b) == Suma(a) + Suma(b)
  {
    if a == [] {
      assert a + b == b;
    } else {
      assert (a + b)[1..] == a[1..] + b;
      SumaConcat(a[1..], b);
    }
  }

  /** A sum of non-negative terms is non-negative. */
  lemma {:induction false} SumaNoNegativa(s: seq<real>)
    requires forall i :: 0 <= i < |s| ==> s[i] >= 0.0
    ensures Suma(s) >= 0.0
  {
    if s != [] {
      SumaNoNegativa(s[1..]);
    }
  }

  /** How many elements of `s` satisfy `p`. */
  function Contar<K>(s: seq<K>, p: K -> bool): nat {
    if s == [] then 0 else Contar(s[..|s| - 1], p) + (if p(s[|s| - 1]) then 1 else 0)
  }

  /** The filter keeps exactly as many elements as satisfy its test. */
  lemma {:induction false} IndicesCuenta<K>(ks: seq<K>, p: K -> bool)
    ensures |Indices(ks, p)| == Contar(ks, p)
  {
    if ks != [] {
      IndicesCuenta(ks[..|ks| - 1], p);
    }
  }

  lemma {:induction false} ContarConcat<K>(a: seq<K>, b: seq<K>, p: K -> bool)
    ensures Contar(a + b, p) == Contar(a, p) + Contar(b, p)
  {
    if b == [] {
      assert a + b == a;
    } else {
      var n := |b| - 1;
      assert (a + b)[..|a + b| - 1] == a + b[..n];
      ContarConcat(a, b[..n], p);
    }
  }

  /** Taking one occurrence of `x` out of `b` leaves what is left of `a`
      once its last element `x` is taken out. */
  lemma QuitarUno<K>(a: seq<K>, b: seq<K>, i: nat)
    requires multiset(a) == multiset(b) && |a| > 0 && i < |b| && b[i] == a[|a| - 1]
    ensures a == a[..|a| - 1] + [b[i]]
    ensures b == b[..i] + [b[i]] + b[i + 1..]
    ensures multiset(a[..|a| - 1]) == multiset(b[..i] + b[i + 1..])
  {
    var x, izq, der := b[i], b[..i], b[i + 1..];
    assert a == a[..|a| - 1] + [x];
    assert b == izq + [x] + der;
    assert multiset(a) == multiset(a[..|a| - 1]) + multiset{x};
    assert multiset(b) == multiset(izq) + multiset{x} + multiset(der);
    assert multiset(izq + der) == multiset(izq) + multiset(der);
    assert multiset(a[..|a| - 1]) == multiset(a) - multiset{x};
    assert multiset(izq + der) == multiset(b) - multiset{x};
  }

  /** The last element of `a` occurs somewhere in any permutation `b`. */
  lemma UltimoEnPermutacion<K>(a: seq<K>, b: seq<K>) returns (i: nat)
    requires multiset(a) == multiset(b) && |a| > 0
    ensures i < |b| && b[i] == a[|a| - 1]
  {
    assert a[|a| - 1] in multiset(b) by { assert a[|a| - 1] in multiset(a); }
    i :| 0 <= i < |b| && b[i] == a[|a| - 1];
  }

  /** Counting over `izq + [x] + der` is counting over `izq + der` plus `x`. */
  lemma ContarSinUno<K>(izq: seq<K>, x: K, der: seq<K>, p: K -> bool)
    ensures Contar(izq + [x] + der, p) == Contar(izq + der, p) + Contar([x], p)
  {
    ContarConcat(izq + [x], der, p);
    ContarConcat(izq, [x], p);
    ContarConcat(izq, der, p);
  }

  /** Counting does not depend on the order of the elements. */
  lemma {:induction false} ContarPermutacion<K>(a: seq<K>, b: seq<K>, p: K -> bool)
    requires multiset(a) == multiset(b)
    ensures Contar(a, p) == Contar(b, p)
  {
    if a == [] {
      assert |b| == |multiset(b)| == 0;
    } else {
      var n := |a| - 1;
      var i := UltimoEnPermutacion(a, b);
      QuitarUno(a, b, i);
      ContarPermutacion(a[..n], b[..i] + b[i + 1..], p);
      ContarSinUno(b[..i], b[i], b[i + 1..], p);
      ContarConcat(a[..n], [b[i]], p);
    }
  }

  /** If the first `k` elements satisfy `p`, at least `k` elements do. */
  lemma {:induction false} ContarPrefijo<K>(s: seq<K>, p: K -> bool, k: nat)
    requires k <= |s|
    requires forall i :: 0 <= i < k ==> p(s[i])
    ensures Contar(s, p) >= k
  {
    if |s| > k {
      ContarPrefijo(s[..|s| - 1], p, k);
    } else if k > 0 {
      ContarPrefijo(s[..|s| - 1], p, k - 1);
    }
  }

  /** If every element from position `k` on fails `p`, at most `k` elements
      satisfy it. */
  lemma {:induction false} ContarAcotado<K>(s: seq<K>, p: K -> bool, k: nat)
    requires k <= |s|
    requires forall i :: k <= i < |s| ==> !p(s[i])
    ensures Contar(s, p) <= k
  {
    if |s| > k {
      ContarAcotado(s[..|s| - 1], p, k);
    } else if k > 0 {
      ContarAcotado(s[..|s| - 1], p, k - 1);
    }
  }

  /** Sorted from the largest to the smallest. */
  predicate Descendente(s: seq<real>) {
    forall i, j :: 0 <= i < j < |s| ==> s[i] >= s[j]
  }

  function InsertarDesc(x: real, s: seq<real>): (r: seq<real>)
    requires Descendente(s)
    ensures Descendente(r)
    ensures multiset(r) == multiset(s) + multiset{x}
    ensures |r| == |s| + 1
    ensures r[0] == if s == [] || x >= s[0] then x else s[0]
  {
    if s == [] || x >= s[0] then [x] + s
    else
      assert s == [s[0]] + s[1..];
      var resto := InsertarDesc(x, s[1..]);
      assert forall k :: 0 <= k < |resto| ==> resto[k] <= resto[0] <= s[0];
      [s[0]] + resto
  }

  /** `sorted(Collections.reverseOrder())`: the same balances, largest first. */
  function OrdenarDesc(s: seq<real>): (r: seq<real>)
    ensures Descendente(r)
    ensures multiset(r) == multiset(s)
    ensures |r| == |s|
  {
    if s == [] then []
    else
      assert s == [s[0]] + s[1..];
      InsertarDesc(s[0], OrdenarDesc(s[1..]))
  }
}
