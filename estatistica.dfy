/** The column statistics the metrics use, on the `salario_usd` column: pandas' `sum`,
    `mean`, `min`, `max`, `quantile` (linear interpolation), `median` and `std`
    (through the sample variance). Salaries are integers; the results are exact reals. */
module Estatistica {
  import opened Options
  import opened Sequences

  /** A salary as the weight of `SumBy`, so that `sum()` is `SumBy(s, Salario)`. */
  function Salario(x: int): int { x }

  /** `min()` of a non-empty column. */
  function Minimo(s: seq<int>): (m: int)
    requires |s| > 0
    ensures m in s
    ensures forall i :: 0 <= i < |s| ==> m <= s[i]
    decreases |s|
  {
    if |s| == 1 then s[0]
    else
      var resto := Minimo(s[1..]);
      assert forall i :: 1 <= i < |s| ==> s[i] == s[1..][i - 1];
      if s[0] <= resto then s[0] else resto
  }

  /** `max()` of a non-empty column. */
  function Maximo(s: seq<int>): (m: int)
    requires |s| > 0
    ensures m in s
    ensures forall i :: 0 <= i < |s| ==> s[i] <= m
    decreases |s|
  {
    if |s| == 1 then s[0]
    else
      var resto := Maximo(s[1..]);
      assert forall i :: 1 <= i < |s| ==> s[i] == s[1..][i - 1];
      if s[0] >= resto then s[0] else resto
  }

  /** A total of values between `lo` and `hi` lies between `n * lo` and `n * hi`. */
  lemma {:induction false} SomaLimitada(s: seq<int>, lo: int, hi: int)
    requires forall i :: 0 <= i < |s| ==> lo <= s[i] <= hi
    ensures |s| * lo <= SumBy(s, Salario) <= |s| * hi
    decreases |s|
  {
    if s != [] {
      assert forall i :: 0 <= i < |s[1..]| ==> s[1..][i] == s[i + 1];
      SomaLimitada(s[1..], lo, hi);
      assert |s| * lo == lo + (|s| - 1) * lo;
      assert |s| * hi == hi + (|s| - 1) * hi;
    }
  }

  /** `mean()` of a non-empty column: it lies between the minimum and the maximum. */
  function Media(s: seq<int>): (r: real)
    requires |s| > 0
    ensures Minimo(s) as real <= r <= Maximo(s) as real
  {
    MediaEntreExtremos(s);
    SumBy(s, Salario) as real / |s| as real
  }

  lemma MediaEntreExtremos(s: seq<int>)
    requires |s| > 0
    ensures Minimo(s) as real <= SumBy(s, Salario) as real / |s| as real <= Maximo(s) as real
  {
    SomaLimitada(s, Minimo(s), Maximo(s));
    DivisaoLimitada(SumBy(s, Salario), |s|, Minimo(s), Maximo(s));
  }

  lemma DivisaoLimitada(t: int, n: nat, lo: int, hi: int)
    requires n > 0 && n * lo <= t <= n * hi
    ensures lo as real <= t as real / n as real <= hi as real
  {
    var d := t as real / n as real;
    assert d * n as real == t as real;
    assert (n * lo) as real == n as real * lo as real;
    assert (n * hi) as real == n as real * hi as real;
    assert (d - lo as real) * n as real == t as real - n as real * lo as real;
    assert (hi as real - d) * n as real == n as real * hi as real - t as real;
  }

  lemma ProdutoNaoNegativo(x: real, y: real)
    requires x >= 0.0 && y >= 0.0
    ensures x * y >= 0.0
  {
  }

  /** A column of equal values has that value as mean. */
  lemma {:induction false} MediaConstante(s: seq<int>, c: int)
    requires |s| > 0 && forall i :: 0 <= i < |s| ==> s[i] == c
    ensures Media(s) == c as real
  {
    SomaLimitada(s, c, c);
  }

  function AsReal(x: int): real { x as real }

  /** The column in ascending order. */
  function Ordenados(s: seq<int>): (v: seq<int>)
    ensures |v| == |s| && multiset(v) == multiset(s)
    ensures Ascendente(v)
  {
    var v := SortBy(s, AsReal);
    AscendentePorChave(v);
    v
  }

  /** An ascending column is one sorted by its values as reals. */
  lemma AscendentePorChave(v: seq<int>)
    ensures Ascendente(v) <==> SortedBy(v, AsReal)
  {
    assert forall i, j :: 0 <= i < j < |v| ==> (AsReal(v[i]) <= AsReal(v[j]) <==> v[i] <= v[j]);
  }

  /** The smallest and the largest value are at the ends of the ordered column. */
  lemma OrdenadosExtremos(s: seq<int>)
    requires |s| > 0
    ensures Ordenados(s)[0] == Minimo(s)
    ensures Ordenados(s)[|s| - 1] == Maximo(s)
  {
    ExtremosDaPermutacao(Ordenados(s), s);
  }

  lemma ExtremosDaPermutacao(v: seq<int>, s: seq<int>)
    requires |s| > 0 && |v| == |s| && multiset(v) == multiset(s) && Ascendente(v)
    ensures v[0] == Minimo(s) && v[|v| - 1] == Maximo(s)
  {
    var lo, hi := Minimo(s), Maximo(s);
    var first, last := v[0], v[|v| - 1];
    assert lo in multiset(v) && hi in multiset(v);
    var i :| 0 <= i < |v| && v[i] == lo;
    var j :| 0 <= j < |v| && v[j] == hi;
    assert first in multiset(s) && last in multiset(s);
    var k :| 0 <= k < |s| && s[k] == first;
    var l :| 0 <= l < |s| && s[l] == last;
  }

  predicate Ascendente(v: seq<int>)
  {
    forall i, j :: 0 <= i < j < |v| ==> v[i] <= v[j]
  }

  /** numpy's `linear` rule at a fractional position of an ascending column: the value
      at the integer part, moved toward the next value by the fractional part. */
  function Interpolar(v: seq<int>, pos: real): (r: real)
    requires |v| > 0 && Ascendente(v) && 0.0 <= pos <= (|v| - 1) as real
    ensures v[0] as real <= r <= v[|v| - 1] as real
  {
    var lo := pos.Floor;
    PisoNaFaixa(pos, |v| - 1);
    var hi := if lo + 1 < |v| then lo + 1 else lo;
    EntreExtremos(v, lo, hi);
    Combinar(v[lo] as real, v[hi] as real, pos - lo as real)
  }

  /** The point a fraction `t` of the way from `a` to `b`. */
  function Combinar(a: real, b: real, t: real): (r: real)
    requires a <= b && 0.0 <= t < 1.0
    ensures a <= r <= b
  {
    InterpolaEntre(a, b, t);
    a + t * (b - a)
  }

  lemma PisoNaFaixa(pos: real, m: nat)
    requires 0.0 <= pos <= m as real
    ensures 0 <= pos.Floor <= m
    ensures pos.Floor as real <= pos < pos.Floor as real + 1.0
  {
  }

  lemma EntreExtremos(v: seq<int>, lo: nat, hi: nat)
    requires Ascendente(v) && lo <= hi < |v|
    ensures v[0] <= v[lo] <= v[hi] <= v[|v| - 1]
  {
  }

  lemma InterpolaEntre(a: real, b: real, t: real)
    requires a <= b && 0.0 <= t < 1.0
    ensures a <= a + t * (b - a) <= b
  {
    ProdutoNaoNegativo(t, b - a);
    ProdutoNaoNegativo(1.0 - t, b - a);
  }

  /** A later position never gives a smaller value. */
  lemma InterpolarMonotono(v: seq<int>, p1: real, p2: real)
    requires |v| > 0 && Ascendente(v) && 0.0 <= p1 <= p2 <= (|v| - 1) as real
    ensures Interpolar(v, p1) <= Interpolar(v, p2)
  {
    var n := |v|;
    var lo1, lo2 := p1.Floor, p2.Floor;
    var hi1 := if lo1 + 1 < n then lo1 + 1 else lo1;
    var hi2 := if lo2 + 1 < n then lo2 + 1 else lo2;
    var f1, f2 := p1 - lo1 as real, p2 - lo2 as real;
    var r1, r2 := Interpolar(v, p1), Interpolar(v, p2);
    assert r1 == v[lo1] as real + f1 * (v[hi1] as real - v[lo1] as real);
    assert r2 == v[lo2] as real + f2 * (v[hi2] as real - v[lo2] as real);
    if lo1 == lo2 {
      var d := v[hi1] as real - v[lo1] as real;
      ProdutoNaoNegativo(f2 - f1, d);
      assert r2 - r1 == (f2 - f1) * d;
    } else {
      InterpolaEntre(v[lo1] as real, v[hi1] as real, f1);
      InterpolaEntre(v[lo2] as real, v[hi2] as real, f2);
      assert r1 <= v[hi1] as real <= v[lo2] as real <= r2;
    }
  }

  /** The position `q * (n - 1)` of the `q` quantile in a column of `n` values. */
  function Posicao(q: real, n: nat): (p: real)
    requires n > 0 && 0.0 <= q <= 1.0
    ensures 0.0 <= p <= (n - 1) as real
  {
    ProdutoNaoNegativo(q, (n - 1) as real);
    ProdutoNaoNegativo(1.0 - q, (n - 1) as real);
    q * (n - 1) as real
  }

  /** A larger `q` has a later position. */
  lemma PosicaoMonotona(q1: real, q2: real, n: nat)
    requires n > 0 && 0.0 <= q1 <= q2 <= 1.0
    ensures Posicao(q1, n) <= Posicao(q2, n)
  {
    ProdutoNaoNegativo(q2 - q1, (n - 1) as real);
  }

  /** `quantile(q)` of a non-empty column: linear interpolation at position
      `q * (n - 1)` of the ordered column (pandas' default). */
  function Quantil(s: seq<int>, q: real): (r: real)
    requires |s| > 0 && 0.0 <= q <= 1.0
    ensures Minimo(s) as real <= r <= Maximo(s) as real
  {
    OrdenadosExtremos(s);
    Interpolar(Ordenados(s), Posicao(q, |s|))
  }

  /** `median()`: the middle value, or the mean of the two middle values. */
  function Mediana(s: seq<int>): real
    requires |s| > 0
  {
    var v := Ordenados(s);
    var n := |s|;
    if n % 2 == 1 then v[n / 2] as real else (v[n / 2 - 1] + v[n / 2]) as real / 2.0
  }

  /** pandas' median is its 0.5 quantile. */
  lemma MedianaEhQuantil(s: seq<int>)
    requires |s| > 0
    ensures Mediana(s) == Quantil(s, 0.5)
  {
    InterpolarMeio(Ordenados(s));
  }

  lemma InterpolarMeio(v: seq<int>)
    requires |v| > 0 && Ascendente(v)
    ensures var n := |v|;
            Interpolar(v, Posicao(0.5, n))
            == if n % 2 == 1 then v[n / 2] as real else (v[n / 2 - 1] + v[n / 2]) as real / 2.0
  {
    var n := |v|;
    var pos := 0.5 * (n - 1) as real;
    if n % 2 == 1 {
      assert pos == (n / 2) as real;
    } else {
      assert pos == (n / 2 - 1) as real + 0.5;
      assert pos.Floor == n / 2 - 1;
    }
  }

  /** The quantile does not decrease with `q`. */
  lemma QuantilMonotono(s: seq<int>, q1: real, q2: real)
    requires |s| > 0 && 0.0 <= q1 <= q2 <= 1.0
    ensures Quantil(s, q1) <= Quantil(s, q2)
  {
    PosicaoMonotona(q1, q2, |s|);
    InterpolarMonotono(Ordenados(s), Posicao(q1, |s|), Posicao(q2, |s|));
  }

  /** The 25th percentile, the median and the 75th percentile lie in order between the
      minimum and the maximum. */
  lemma QuartisOrdenados(s: seq<int>)
    requires |s| > 0
    ensures Minimo(s) as real <= Quantil(s, 0.25) <= Mediana(s) <= Quantil(s, 0.75) <= Maximo(s) as real
  {
    MedianaEhQuantil(s);
    QuantilMonotono(s, 0.25, 0.5);
    QuantilMonotono(s, 0.5, 0.75);
  }

  /** Two ascending orderings of the same values are the same sequence. */
  lemma {:induction false} OrdenacaoUnica(a: seq<int>, b: seq<int>)
    requires multiset(a) == multiset(b) && Ascendente(a) && Ascendente(b)
    ensures a == b
    decreases |a|
  {
    assert |a| == |multiset(a)| == |multiset(b)| == |b|;
    if a != [] {
      PrimeirosIguais(a, b);
      CaudaAscendente(a);
      CaudaAscendente(b);
      assert multiset(a[1..]) == multiset(b[1..]) by {
        assert a == [a[0]] + a[1..] && b == [b[0]] + b[1..];
        assert multiset(a[1..]) == multiset(a) - multiset{a[0]};
        assert multiset(b[1..]) == multiset(b) - multiset{b[0]};
      }
      OrdenacaoUnica(a[1..], b[1..]);
      assert a == [a[0]] + a[1..] && b == [b[0]] + b[1..];
    }
  }

  lemma PrimeirosIguais(a: seq<int>, b: seq<int>)
    requires |a| > 0 && |b| > 0 && multiset(a) == multiset(b) && Ascendente(a) && Ascendente(b)
    ensures a[0] == b[0]
  {
    assert a[0] in multiset(b) && b[0] in multiset(a);
    var i :| 0 <= i < |b| && b[i] == a[0];
    var j :| 0 <= j < |a| && a[j] == b[0];
  }

  lemma CaudaAscendente(a: seq<int>)
    requires |a| > 0 && Ascendente(a)
    ensures Ascendente(a[1..])
  {
    forall i, j | 0 <= i < j < |a[1..]| ensures a[1..][i] <= a[1..][j] {
      assert a[1..][i] == a[i + 1] && a[1..][j] == a[j + 1];
    }
  }

  /** The salaries 10, 20, 30, 40 have 17.5 as 25th percentile, 25 as median and 32.5
      as 75th percentile. */
  lemma ExemploQuartis()
    ensures Quantil([10, 20, 30, 40], 0.25) == 17.5
    ensures Mediana([10, 20, 30, 40]) == 25.0
    ensures Quantil([10, 20, 30, 40], 0.75) == 32.5
  {
    ExemploQuartisDe([10, 20, 30, 40]);
  }

  lemma ExemploQuartisDe(s: seq<int>)
    requires s == [10, 20, 30, 40]
    ensures Quantil(s, 0.25) == 17.5 && Mediana(s) == 25.0 && Quantil(s, 0.75) == 32.5
  {
    ExemploOrdenado(s);
    assert Posicao(0.25, 4) == 0.75;
    assert Posicao(0.75, 4) == 2.25;
    assert Posicao(0.5, 4) == 1.5;
    ExemploInterpolado(s);
    MedianaEhQuantil(s);
  }

  lemma ExemploOrdenado(s: seq<int>)
    requires s == [10, 20, 30, 40]
    ensures Ordenados(s) == s
  {
    assert Ascendente(s);
    OrdenacaoUnica(Ordenados(s), s);
  }

  lemma ExemploInterpolado(s: seq<int>)
    requires s == [10, 20, 30, 40]
    ensures Ascendente(s)
    ensures Interpolar(s, 0.75) == 17.5 && Interpolar(s, 1.5) == 25.0 && Interpolar(s, 2.25) == 32.5
  {
    assert Ascendente(s);
    assert (0.75).Floor == 0 && (1.5).Floor == 1 && (2.25).Floor == 2;
  }

  /** The sum of squared deviations from `m`. */
  function SomaQuadrados(s: seq<int>, m: real): (r: real)
    ensures r >= 0.0
    decreases |s|
  {
    if s == [] then 0.0 else (s[0] as real - m) * (s[0] as real - m) + SomaQuadrados(s[1..], m)
  }

  /** The sample variance (divisor `n - 1`): pandas' `std()` squared. With fewer than
      two values pandas reports NaN, here `None`. */
  function VarianciaAmostral(s: seq<int>): (r: Option<real>)
    ensures r.Some? <==> |s| >= 2
    ensures r.Some? ==> r.value >= 0.0
  {
    if |s| < 2 then None
    else Some(SomaQuadrados(s, Media(s)) / (|s| - 1) as real)
  }

  /** Equal values have no dispersion. */
  lemma {:induction false} VarianciaConstante(s: seq<int>, c: int)
    requires |s| >= 2 && forall i :: 0 <= i < |s| ==> s[i] == c
    ensures VarianciaAmostral(s) == Some(0.0)
  {
    MediaConstante(s, c);
    SomaQuadradosNula(s, c as real);
  }

  lemma {:induction false} SomaQuadradosNula(s: seq<int>, m: real)
    requires forall i :: 0 <= i < |s| ==> s[i] as real == m
    ensures SomaQuadrados(s, m) == 0.0
    decreases |s|
  {
    if s != [] {
      assert forall i :: 0 <= i < |s[1..]| ==> s[1..][i] == s[i + 1];
      SomaQuadradosNula(s[1..], m);
    }
  }
}
