/** The array queries the in-memory stores use (`find`, `findIndex`, `filter`),
    as functions on sequences. Predicates are passed as total arrows. */
module Colecoes {
  import opened Wrappers

  /** `findIndex`: the index of the first element satisfying `p`, or -1. */
  function IndiceDe<T>(s: seq<T>, p: T -> bool): (i: int)
    ensures -1 <= i < |s|
    ensures i == -1 <==> forall k :: 0 <= k < |s| ==> !p(s[k])
    ensures 0 <= i ==> p(s[i]) && forall k :: 0 <= k < i ==> !p(s[k])
  {
    if s == [] then -1
    else if p(s[0]) then 0
    else
      var j := IndiceDe(s[1..], p);
      if j == -1 then -1 else j + 1
  }

  /** If `m` satisfies `p` and nothing before it does, `m` is what `findIndex` returns. */
  lemma PrimeiroIndice<T>(s: seq<T>, p: T -> bool, m: nat)
    requires m < |s| && p(s[m])
    requires forall k :: 0 <= k < m ==> !p(s[k])
    ensures IndiceDe(s, p) == m
  {
  }

  /** `find`: the first element satisfying `p`. */
  function Encontrar<T>(s: seq<T>, p: T -> bool): (r: Option<T>)
    ensures r.None? <==> forall k :: 0 <= k < |s| ==> !p(s[k])
    ensures r.Some? ==> p(r.value) && r.value == s[IndiceDe(s, p)]
  {
    var i := IndiceDe(s, p);
    if i == -1 then None else Some(s[i])
  }

  /** `filter`: the elements satisfying `p`, in their original order. */
  function Filtrar<T>(s: seq<T>, p: T -> bool): (r: seq<T>)
    ensures |r| <= |s|
    ensures forall k :: 0 <= k < |r| ==> r[k] in s && p(r[k])
    ensures forall k :: 0 <= k < |s| && p(s[k]) ==> s[k] in r
  {
    if s == [] then []
    else (if p(s[0]) then [s[0]] else []) + Filtrar(s[1..], p)
  }

  /** Filtering distributes over concatenation: the relative order of the
      kept elements is the order of the input. */
  lemma {:induction false} FiltrarConcat<T>(a: seq<T>, b: seq<T>, p: T -> bool)
    ensures Filtrar(a + b, p) == Filtrar(a, p) + Filtrar(b, p)
  {
    if a == [] {
      assert a + b == b;
    } else {
      assert (a + b)[0] == a[0];
      assert (a + b)[1..] == a[1..] + b;
      FiltrarConcat(a[1..], b, p);
    }
  }

  /** A filter keeps everything exactly when every element satisfies it. */
  lemma {:induction false} FiltrarTudo<T>(s: seq<T>, p: T -> bool)
    requires forall k :: 0 <= k < |s| ==> p(s[k])
    ensures Filtrar(s, p) == s
  {
    if s != [] {
      FiltrarTudo(s[1..], p);
      assert [s[0]] + s[1..] == s;
    }
  }

  /** A filter keeps nothing exactly when no element satisfies it, and
      keeps the whole sequence exactly when every element does. */
  lemma {:induction false} TamanhoFiltrar<T>(s: seq<T>, p: T -> bool)
    ensures |Filtrar(s, p)| == 0 <==> forall k :: 0 <= k < |s| ==> !p(s[k])
    ensures |Filtrar(s, p)| == |s| <==> forall k :: 0 <= k < |s| ==> p(s[k])
  {
    if s != [] {
      TamanhoFiltrar(s[1..], p);
      if |Filtrar(s, p)| == |s| {
        assert p(s[0]);
        forall k | 0 <= k < |s| ensures p(s[k]) {
          if k > 0 {
            assert s[k] == s[1..][k - 1];
          }
        }
      }
      if forall k :: 0 <= k < |s| ==> p(s[k]) {
        FiltrarTudo(s, p);
      }
    }
  }

  /** A weaker predicate keeps at least as many elements. */
  lemma {:induction false} FiltrarMonotono<T>(s: seq<T>, p: T -> bool, q: T -> bool)
    requires forall k :: 0 <= k < |s| ==> p(s[k]) ==> q(s[k])
    ensures |Filtrar(s, p)| <= |Filtrar(s, q)|
  {
    if s != [] {
      FiltrarMonotono(s[1..], p, q);
    }
  }

  /** Replacing one element by another that the predicate judges the same
      way does not change how many elements are kept. */
  lemma {:induction false} FiltrarAtualizado<T>(s: seq<T>, i: nat, x: T, p: T -> bool)
    requires i < |s|
    requires p(x) == p(s[i])
    ensures |Filtrar(s[i := x], p)| == |Filtrar(s, p)|
  {
    if i == 0 {
      assert s[i := x][1..] == s[1..];
    } else {
      assert s[i := x][1..] == s[1..][i - 1 := x];
      FiltrarAtualizado(s[1..], i - 1, x, p);
    }
  }

  /** Filtering twice keeps what satisfies both predicates, in order. */
  lemma {:induction false} FiltrarFiltrar<T>(s: seq<T>, p: T -> bool, q: T -> bool, pq: T -> bool)
    requires forall x :: pq(x) == (p(x) && q(x))
    ensures Filtrar(Filtrar(s, p), q) == Filtrar(s, pq)
  {
    if s != [] {
      FiltrarConcat(if p(s[0]) then [s[0]] else [], Filtrar(s[1..], p), q);
      FiltrarFiltrar(s[1..], p, q, pq);
    }
  }
}
