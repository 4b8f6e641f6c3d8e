/** Sums of a real-valued measure over the rows of a table, and how appending, updating,
    reordering or re-measuring the rows changes them. */
module Sumas {

  function Suma<T>(s: seq<T>, f: T -> real): real {
    if |s| == 0 then 0.0 else Suma(s[..|s| - 1], f) + f(s[|s| - 1])
  }

  lemma {:induction false} SumaUno<T>(x: T, f: T -> real)
    ensures Suma([x], f) == f(x)
  {
    assert [x][..0] == [];
  }

  lemma {:induction false} SumaConcat<T>(s: seq<T>, t: seq<T>, f: T -> real)
    ensures Suma(s + t, f) == Suma(s, f) + Suma(t, f)
  {
    if |t| == 0 {
      assert s + t == s;
    } else {
      assert s + t == (s + t[..|t| - 1]) + [t[|t| - 1]];
      SumaConcat(s, t[..|t| - 1], f);
    }
  }

  lemma {:induction false} SumaCambia<T>(s: seq<T>, i: nat, x: T, f: T -> real)
    requires i < |s|
    ensures Suma(s[i := x], f) == Suma(s, f) - f(s[i]) + f(x)
  {
    var n := |s| - 1;
    if i == n {
      assert s[i := x][..n] == s[..n];
    } else {
      SumaCambia(s[..n], i, x, f);
      assert s[i := x][..n] == s[..n][i := x];
    }
  }

  lemma {:induction false} SumaIgual<T>(s: seq<T>, f: T -> real, g: T -> real)
    requires forall i :: 0 <= i < |s| ==> f(s[i]) == g(s[i])
    ensures Suma(s, f) == Suma(s, g)
  {
    if |s| > 0 {
      SumaIgual(s[..|s| - 1], f, g);
    }
  }

  /** Two tables whose rows measure the same, one by one, add up to the same. */
  lemma {:induction false} SumaParalela<T>(s: seq<T>, t: seq<T>, f: T -> real)
    requires |s| == |t| && forall i :: 0 <= i < |s| ==> f(s[i]) == f(t[i])
    ensures Suma(s, f) == Suma(t, f)
  {
    if |s| > 0 {
      SumaParalela(s[..|s| - 1], t[..|t| - 1], f);
    }
  }

  lemma {:induction false} SumaMenor<T>(s: seq<T>, f: T -> real, g: T -> real)
    requires forall i :: 0 <= i < |s| ==> f(s[i]) <= g(s[i])
    ensures Suma(s, f) <= Suma(s, g)
  {
    if |s| > 0 {
      SumaMenor(s[..|s| - 1], f, g);
    }
  }

  lemma {:induction false} SumaNula<T>(s: seq<T>, f: T -> real)
    requires forall i :: 0 <= i < |s| ==> f(s[i]) == 0.0
    ensures Suma(s, f) == 0.0
  {
    if |s| > 0 {
      SumaNula(s[..|s| - 1], f);
    }
  }

  lemma {:induction false} SumaNoNegativa<T>(s: seq<T>, f: T -> real)
    requires forall i :: 0 <= i < |s| ==> f(s[i]) >= 0.0
    ensures Suma(s, f) >= 0.0
  {
    if |s| > 0 {
      SumaNoNegativa(s[..|s| - 1], f);
    }
  }

  /** No single row of a non-negative measure exceeds the sum. */
  lemma {:induction false} SumaAcota<T>(s: seq<T>, i: nat, f: T -> real)
    requires i < |s|
    requires forall j :: 0 <= j < |s| ==> f(s[j]) >= 0.0
    ensures f(s[i]) <= Suma(s, f)
  {
    if i == |s| - 1 {
      SumaNoNegativa(s[..i], f);
    } else {
      SumaAcota(s[..|s| - 1], i, f);
    }
  }

  /** A measure that is linear in two others sums linearly. */
  lemma {:induction false} SumaMasMenos<T>(s: seq<T>, f: T -> real, g: T -> real, h: T -> real)
    requires forall i :: 0 <= i < |s| ==> f(s[i]) == g(s[i]) + h(s[i])
    ensures Suma(s, f) == Suma(s, g) + Suma(s, h)
  {
    if |s| > 0 {
      SumaMasMenos(s[..|s| - 1], f, g, h);
    }
  }

  lemma {:induction false} SumaSinElemento<T>(s: seq<T>, i: nat, f: T -> real)
    requires i < |s|
    ensures Suma(s[..i] + s[i + 1..], f) == Suma(s, f) - f(s[i])
  {
    SumaConcat(s[..i], s[i + 1..], f);
    assert s == (s[..i] + [s[i]]) + s[i + 1..];
    SumaConcat(s[..i] + [s[i]], s[i + 1..], f);
  }

  /** The sum does not depend on the order of the rows. */
  lemma {:induction false} SumaPermuta<T>(s: seq<T>, t: seq<T>, f: T -> real)
    requires multiset(s) == multiset(t)
    ensures Suma(s, f) == Suma(t, f)
  {
    if |s| == 0 {
      assert |multiset(t)| == 0;
    } else {
      var x := s[|s| - 1];
      var s' := s[..|s| - 1];
      assert s == s' + [x];
      assert x in multiset(t);
      var i :| 0 <= i < |t| && t[i] == x;
      var t' := t[..i] + t[i + 1..];
      assert t == t[..i] + [x] + t[i + 1..];
      assert multiset(t') == multiset(t) - multiset{x};
      assert multiset(s') == multiset(s) - multiset{x};
      SumaPermuta(s', t', f);
      SumaSinElemento(t, i, f);
    }
  }

  ghost predicate SinDuplicados<T(!new)>(s: seq<T>) {
    forall i, j :: 0 <= i < j < |s| ==> s[i] != s[j]
  }

  lemma {:induction false} SinElemento<T(!new)>(t: seq<T>, i: nat)
    requires SinDuplicados(t) && i < |t|
    ensures var r := t[..i] + t[i + 1..];
      SinDuplicados(r) && forall y :: y in r <==> y in t && y != t[i]
  {
    var r := t[..i] + t[i + 1..];
    forall y | y in t && y != t[i] ensures y in r {
      var j :| 0 <= j < |t| && t[j] == y;
      assert r[if j < i then j else j - 1] == y;
    }
  }

  /** Rows that measure nothing can be dropped, and the rest taken in any order. */
  lemma {:induction false} SumaRecorte<T(!new)>(s: seq<T>, t: seq<T>, f: T -> real)
    requires SinDuplicados(s) && SinDuplicados(t)
    requires forall x :: x in t ==> x in s
    requires forall x :: x in s && f(x) != 0.0 ==> x in t
    ensures Suma(s, f) == Suma(t, f)
    decreases |s|
  {
    if |s| == 0 {
      assert forall i :: 0 <= i < |t| ==> t[i] in t;
    } else {
      var x, s' := s[|s| - 1], s[..|s| - 1];
      assert s == s' + [x] && x !in s';
      if x in t {
        var i :| 0 <= i < |t| && t[i] == x;
        SinElemento(t, i);
        SumaRecorte(s', t[..i] + t[i + 1..], f);
        SumaSinElemento(t, i, f);
      } else {
        SumaRecorte(s', t, f);
      }
    }
  }
}
