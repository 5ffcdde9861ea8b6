/** `calcular_metricas` (app.py, lines 226-280): the summary figures of a filtered
    table, including the most frequent title and the change of the mean salary
    between the two most recent years. */
module Metricas {
  import opened Options
  import opened Dados
  import opened Sequences
  import opened Estatistica

  // ------------------------------------------------------------ order of strings

  /** Python's `<` on strings: code point by code point, a proper prefix first. */
  predicate StrLess(a: string, b: string)
    decreases |a|
  {
    if a == [] then b != []
    else if b == [] then false
    else if a[0] != b[0] then a[0] < b[0]
    else StrLess(a[1..], b[1..])
  }

  lemma {:induction false} StrLessIrreflexivo(a: string)
    ensures !StrLess(a, a)
    decreases |a|
  {
    if a != [] {
      StrLessIrreflexivo(a[1..]);
    }
  }

  lemma {:induction false} StrLessAssimetrico(a: string, b: string)
    ensures StrLess(a, b) ==> !StrLess(b, a)
    decreases |a|
  {
    if a != [] && b != [] && a[0] == b[0] {
      StrLessAssimetrico(a[1..], b[1..]);
    }
  }

  /** Two different strings are ordered one way or the other. */
  lemma {:induction false} StrLessTotal(a: string, b: string)
    ensures a != b ==> StrLess(a, b) || StrLess(b, a)
    decreases |a|
  {
    if a != [] && b != [] && a[0] == b[0] {
      StrLessTotal(a[1..], b[1..]);
      if a[1..] == b[1..] {
        assert a == [a[0]] + a[1..] && b == [b[0]] + b[1..];
      }
    }
  }

  lemma {:induction false} StrLessTransitivo(a: string, b: string, c: string)
    requires StrLess(a, b) && StrLess(b, c)
    ensures StrLess(a, c)
    decreases |a|
  {
    if a != [] && a[0] == b[0] && b[0] == c[0] {
      StrLessTransitivo(a[1..], b[1..], c[1..]);
    }
  }

  /** "Not after" is transitive. */
  lemma NaoDepoisTransitivo(a: string, b: string, c: string)
    requires !StrLess(b, a) && !StrLess(c, b)
    ensures !StrLess(c, a)
  {
    StrLessTotal(a, b);
    StrLessTotal(b, c);
    if a != b && b != c {
      StrLessTransitivo(a, b, c);
      StrLessAssimetrico(a, c);
    }
  }

  // --------------------------------------------------------------------- mode

  /** `a` is at least as good a mode as `b`: more frequent, or as frequent and not
      after it in string order. */
  predicate Preferido(m: multiset<string>, a: string, b: string)
  {
    m[a] > m[b] || (m[a] == m[b] && !StrLess(b, a))
  }

  lemma PreferidoTransitivo(m: multiset<string>, a: string, b: string, c: string)
    requires Preferido(m, a, b) && Preferido(m, b, c)
    ensures Preferido(m, a, c)
  {
    if m[a] == m[b] && m[b] == m[c] {
      NaoDepoisTransitivo(a, b, c);
    }
  }

  lemma PreferidoTotal(m: multiset<string>, a: string, b: string)
    ensures Preferido(m, a, b) || Preferido(m, b, a)
  {
    StrLessAssimetrico(a, b);
  }

  /** The best candidate of `c` under `Preferido`. */
  function Melhor(c: seq<string>, m: multiset<string>): (r: string)
    requires |c| > 0
    ensures r in c
    ensures forall x :: x in c ==> Preferido(m, r, x)
    decreases |c|
  {
    if |c| == 1 then
      StrLessIrreflexivo(c[0]);
      c[0]
    else
      var resto := Melhor(c[1..], m);
      assert c == [c[0]] + c[1..];
      StrLessIrreflexivo(c[0]);
      if Preferido(m, c[0], resto) then
        assert forall x :: x in c[1..] ==> Preferido(m, c[0], x) by {
          forall x | x in c[1..] ensures Preferido(m, c[0], x) {
            PreferidoTransitivo(m, c[0], resto, x);
          }
        }
        c[0]
      else
        PreferidoTotal(m, c[0], resto);
        resto
  }

  /** `mode()[0]` of a non-empty column: a most frequent value and, among the most
      frequent, the first in string order. */
  function Moda(s: seq<string>): (r: string)
    requires |s| > 0
    ensures r in s
    ensures forall x :: x in s ==> multiset(s)[x] <= multiset(s)[r]
    ensures forall x :: x in s && multiset(s)[x] == multiset(s)[r] ==> x == r || StrLess(r, x)
  {
    var r := Melhor(Distinct(s), multiset(s));
    assert forall x :: x in s ==> Preferido(multiset(s), r, x);
    forall x | x in s && multiset(s)[x] == multiset(s)[r] ensures x == r || StrLess(r, x) {
      StrLessTotal(r, x);
    }
    r
  }

  // ---------------------------------------------------------- year-over-year change

  /** The values of `anos` below `limite`. */
  function AnosAbaixo(anos: seq<int>, limite: int): seq<int>
  {
    Filter(y => y < limite, anos)
  }

  /** `dataframe[dataframe['ano'] == ano]['salario_usd']`. */
  function SalariosDoAno(df: seq<Record>, ano: int): seq<int>
  {
    Map(SalarioUsdDe, Filter((r: Record) => r.ano == ano, df))
  }

  /** A year that occurs has at least one salary. */
  lemma SalariosDoAnoPresente(df: seq<Record>, ano: int)
    requires ano in Map(AnoDe, df)
    ensures |SalariosDoAno(df, ano)| > 0
  {
    var i :| 0 <= i < |df| && Map(AnoDe, df)[i] == ano;
    assert df[i] in Filter((r: Record) => r.ano == ano, df);
  }

  /** The relative change, in percent, from the mean of the latest to the mean of the
      year before it among the years present; 0 when there is only one year or when
      the earlier mean is not positive. */
  function VariacaoAnoAnterior(df: seq<Record>): real
  {
    if df == [] then 0.0
    else
      var atual := Maximo(Map(AnoDe, df));
      var anteriores := AnosAbaixo(Map(AnoDe, df), atual);
      if anteriores == [] then 0.0
      else
        var anterior := Maximo(anteriores);
        SalariosDoAnoPresente(df, atual);
        SalariosDoAnoPresente(df, anterior);
        VariacaoDe(Media(SalariosDoAno(df, atual)), Media(SalariosDoAno(df, anterior)))
  }

  /** The two cases of `VariacaoDe`. */
  lemma VariacaoDeCasos(mediaAtual: real, mediaAnterior: real)
    ensures mediaAnterior <= 0.0 ==> VariacaoDe(mediaAtual, mediaAnterior) == 0.0
    ensures mediaAnterior > 0.0 ==>
              VariacaoDe(mediaAtual, mediaAnterior) == (mediaAtual - mediaAnterior) / mediaAnterior * 100.0
  {
  }

  /** The relative change, in percent, between two means; 0 unless the earlier one is
      positive. */
  function VariacaoDe(mediaAtual: real, mediaAnterior: real): real
  {
    if mediaAnterior > 0.0 then (mediaAtual - mediaAnterior) / mediaAnterior * 100.0 else 0.0
  }

  /** With a single year there is no change. */
  lemma VariacaoUmAno(df: seq<Record>)
    requires forall i, j :: 0 <= i < j < |df| ==> df[i].ano == df[j].ano
    ensures VariacaoAnoAnterior(df) == 0.0
  {
    if df != [] {
      var atual := Maximo(Map(AnoDe, df));
      forall i | 0 <= i < |df| ensures Map(AnoDe, df)[i] == atual {
        var k :| 0 <= k < |df| && Map(AnoDe, df)[k] == atual;
        if i != k {
          assert df[i].ano == df[k].ano;
        }
      }
      assert AnosAbaixo(Map(AnoDe, df), atual) == [] by {
        var b := AnosAbaixo(Map(AnoDe, df), atual);
        assert multiset(b) == multiset{};
      }
    }
  }

  /** Mean 100 in 2020 and mean 150 in 2021 is a change of 50 percent. */
  lemma VariacaoExemplo(df: seq<Record>)
    requires |df| == 2
    requires df[0].ano == 2020 && df[0].salarioUsd == 100
    requires df[1].ano == 2021 && df[1].salarioUsd == 150
    ensures VariacaoAnoAnterior(df) == 50.0
  {
    AnosExemplo(df);
    AbaixoExemplo(Map(AnoDe, df));
    VariacaoPelosDoisUltimos(df, 2021, 2020);
    SalariosExemplo(df);
    MediasExemplo(SalariosDoAno(df, 2021), SalariosDoAno(df, 2020));
  }

  lemma AnosExemplo(df: seq<Record>)
    requires |df| == 2 && df[0].ano == 2020 && df[1].ano == 2021
    ensures Map(AnoDe, df) == [2020, 2021] && Maximo(Map(AnoDe, df)) == 2021
  {
  }

  lemma AbaixoExemplo(anos: seq<int>)
    requires anos == [2020, 2021]
    ensures AnosAbaixo(anos, 2021) == [2020] && Maximo(AnosAbaixo(anos, 2021)) == 2020
  {
  }

  lemma SalariosExemplo(df: seq<Record>)
    requires |df| == 2
    requires df[0].ano == 2020 && df[0].salarioUsd == 100
    requires df[1].ano == 2021 && df[1].salarioUsd == 150
    ensures SalariosDoAno(df, 2021) == [150] && SalariosDoAno(df, 2020) == [100]
  {
    var f0 := (r: Record) => r.ano == 2020;
    var f1 := (r: Record) => r.ano == 2021;
    assert df == [df[0]] + [df[1]];
    assert Filter(f1, df) == [df[1]];
    assert Filter(f0, df) == [df[0]];
  }

  lemma MediasExemplo(a: seq<int>, b: seq<int>)
    requires a == [150] && b == [100]
    ensures VariacaoDe(Media(a), Media(b)) == 50.0
  {
    assert Media(a) == 150.0 && Media(b) == 100.0;
    VariacaoDeCasos(150.0, 100.0);
  }

  // ----------------------------------------------------------------- the metrics

  /** The metrics dictionary. `variancia` stands for `desvio_padrao`: the square of
      the sample standard deviation, `None` where pandas gives NaN. */
  datatype Metricas = Metricas(
    salarioMedio: real,
    salarioMediano: real,
    salarioMinimo: int,
    salarioMaximo: int,
    variancia: Option<real>,
    percentil25: real,
    percentil75: real,
    totalRegistros: nat,
    cargoMaisFrequente: string,
    variacaoAnoAnterior: real,
    numeroCargosUnicos: nat)

  /** What an empty table gets. */
  const METRICAS_VAZIAS: Metricas := Metricas(0.0, 0.0, 0, 0, Some(0.0), 0.0, 0.0, 0, "", 0.0, 0)

  /** The metrics of a table, figure by figure. */
  function MetricasDe(df: seq<Record>): Metricas
  {
    if df == [] then METRICAS_VAZIAS
    else
      var salarios := Map(SalarioUsdDe, df);
      Metricas(
        Media(salarios), Mediana(salarios), Minimo(salarios), Maximo(salarios),
        VarianciaAmostral(salarios), Quantil(salarios, 0.25), Quantil(salarios, 0.75),
        |df|, Moda(Map(CargoDe, df)), VariacaoAnoAnterior(df), |Distinct(Map(CargoDe, df))|)
  }

  /** On a non-empty table the figures are consistent with each other. */
  lemma MetricasCoerentes(df: seq<Record>)
    requires df != []
    ensures var m := MetricasDe(df);
            && m.totalRegistros == |df|
            && 1 <= m.numeroCargosUnicos <= m.totalRegistros
            && m.salarioMinimo as real <= m.percentil25 <= m.salarioMediano
               <= m.percentil75 <= m.salarioMaximo as real
            && m.salarioMinimo as real <= m.salarioMedio <= m.salarioMaximo as real
            && (m.variancia.Some? <==> |df| >= 2)
            && (m.variancia.Some? ==> m.variancia.value >= 0.0)
            && m.cargoMaisFrequente in Map(CargoDe, df)
  {
    var salarios := Map(SalarioUsdDe, df);
    QuartisOrdenados(salarios);
    var cargos := Distinct(Map(CargoDe, df));
    assert Map(CargoDe, df)[0] in cargos;
  }

  /** A permutation of a sequence with the values of `anos` has the values of `anos`. */
  lemma MesmosValores(anos: seq<int>, d: seq<int>, o: seq<int>)
    requires multiset(d) == multiset(o)
    requires forall y :: y in d <==> y in anos
    ensures forall y :: y in o <==> y in anos
  {
    forall y ensures y in o <==> y in anos {
      assert y in o <==> y in multiset(o);
      assert y in d <==> y in multiset(d);
    }
  }

  /** In an ascending sequence without repetitions holding exactly the values of
      `anos`, the last entry is their maximum and the one before it the maximum of
      those below it. */
  lemma UltimosDeOrdenados(anos: seq<int>, o: seq<int>)
    requires |o| >= 2 && NoDup(o) && Ascendente(o)
    requires forall y :: y in o <==> y in anos
    ensures |anos| > 0
    ensures o[|o| - 1] == Maximo(anos)
    ensures AnosAbaixo(anos, o[|o| - 1]) != []
    ensures o[|o| - 2] == Maximo(AnosAbaixo(anos, o[|o| - 1]))
  {
    UltimoEhMaximo(anos, o);
    PenultimoEhMaximoAbaixo(anos, o);
  }

  lemma UltimoEhMaximo(anos: seq<int>, o: seq<int>)
    requires |o| >= 1 && Ascendente(o)
    requires forall y :: y in o <==> y in anos
    ensures |anos| > 0 && o[|o| - 1] == Maximo(anos)
  {
    var n := |o|;
    var ultimo := o[n - 1];
    assert ultimo in o;
    assert ultimo in anos;
    var atual := Maximo(anos);
    var k :| 0 <= k < n && o[k] == atual;
    var i :| 0 <= i < |anos| && anos[i] == ultimo;
  }

  lemma PenultimoEhMaximoAbaixo(anos: seq<int>, o: seq<int>)
    requires |o| >= 2 && NoDup(o) && Ascendente(o)
    requires forall y :: y in o <==> y in anos
    requires |anos| > 0 && o[|o| - 1] == Maximo(anos)
    ensures AnosAbaixo(anos, o[|o| - 1]) != []
    ensures o[|o| - 2] == Maximo(AnosAbaixo(anos, o[|o| - 1]))
  {
    var ultimo := o[|o| - 1];
    var abaixo := AnosAbaixo(anos, ultimo);
    assert forall y :: y in abaixo <==> y in anos && y < ultimo;
    MaiorAbaixo(anos, o, abaixo);
  }

  /** The second largest of the ordered distinct years is the largest year below the last. */
  lemma MaiorAbaixo(anos: seq<int>, o: seq<int>, abaixo: seq<int>)
    requires |o| >= 2 && NoDup(o) && Ascendente(o)
    requires forall y :: y in o <==> y in anos
    requires forall y :: y in abaixo <==> y in anos && y < o[|o| - 1]
    ensures abaixo != [] && o[|o| - 2] == Maximo(abaixo)
  {
    var n := |o|;
    var ultimo, penultimo := o[n - 1], o[n - 2];
    assert penultimo in o;
    assert penultimo < ultimo;
    assert penultimo in abaixo;
    var anterior := Maximo(abaixo);
    assert anterior in anos && anterior < ultimo;
    var k :| 0 <= k < n && o[k] == anterior;
    assert k < n - 1;
    assert anterior <= penultimo;
  }

  /** With fewer than two distinct years there is no year below the latest one. */
  lemma UmAnoDistinto(df: seq<Record>)
    requires df != [] && |Distinct(Map(AnoDe, df))| < 2
    ensures AnosAbaixo(Map(AnoDe, df), Maximo(Map(AnoDe, df))) == []
    ensures VariacaoAnoAnterior(df) == 0.0
  {
    var anos := Map(AnoDe, df);
    var atual := Maximo(anos);
    var abaixo := AnosAbaixo(anos, atual);
    forall y | y in anos ensures y == atual {
      if y != atual {
        TwoValuesTwoDistinct(anos, y, atual);
      }
    }
    assert multiset(abaixo) == multiset{};
  }

  /** The change computed from a given latest year and the latest year before it. */
  lemma VariacaoPelosDoisUltimos(df: seq<Record>, atual: int, anterior: int)
    requires df != [] && atual == Maximo(Map(AnoDe, df))
    requires AnosAbaixo(Map(AnoDe, df), atual) != [] && anterior == Maximo(AnosAbaixo(Map(AnoDe, df), atual))
    ensures |SalariosDoAno(df, atual)| > 0 && |SalariosDoAno(df, anterior)| > 0
    ensures VariacaoAnoAnterior(df)
            == VariacaoDe(Media(SalariosDoAno(df, atual)), Media(SalariosDoAno(df, anterior)))
  {
    assert anterior in Map(AnoDe, df);
    SalariosDoAnoPresente(df, atual);
    SalariosDoAnoPresente(df, anterior);
  }

  /** When the distinct years, sorted, number at least two, the change is the one
      between the means of the last two of them. */
  lemma VariacaoPelosOrdenados(df: seq<Record>, anosUnicos: seq<int>, anosOrdenados: seq<int>)
    requires df != [] && anosUnicos == Distinct(Map(AnoDe, df))
    requires anosOrdenados == Ordenados(anosUnicos) && |anosOrdenados| >= 2
    ensures |SalariosDoAno(df, anosOrdenados[|anosOrdenados| - 1])| > 0
    ensures |SalariosDoAno(df, anosOrdenados[|anosOrdenados| - 2])| > 0
    ensures VariacaoAnoAnterior(df)
            == VariacaoDe(Media(SalariosDoAno(df, anosOrdenados[|anosOrdenados| - 1])),
                          Media(SalariosDoAno(df, anosOrdenados[|anosOrdenados| - 2])))
  {
    NoDupPermutation(anosUnicos, anosOrdenados);
    MesmosValores(Map(AnoDe, df), anosUnicos, anosOrdenados);
    UltimosDeOrdenados(Map(AnoDe, df), anosOrdenados);
    VariacaoPelosDoisUltimos(df, anosOrdenados[|anosOrdenados| - 1], anosOrdenados[|anosOrdenados| - 2]);
  }

  /** Lines 255-266 of `calcular_metricas`: `variacao` starts at 0 and is overwritten
      only when there are two distinct years and the earlier mean is positive. */
  method CalcularVariacao(dataframe: seq<Record>) returns (variacao: real)
    requires dataframe != []
    ensures variacao == VariacaoAnoAnterior(dataframe)
  {
    variacao := 0.0;
    var anosUnicos := Distinct(Map(AnoDe, dataframe));
    if |anosUnicos| > 1 {
      var anosOrdenados := Ordenados(anosUnicos);
      if |anosOrdenados| >= 2 {
        var anoAtual := anosOrdenados[|anosOrdenados| - 1];
        var anoAnterior := anosOrdenados[|anosOrdenados| - 2];
        VariacaoPelosOrdenados(dataframe, anosUnicos, anosOrdenados);
        variacao := VariacaoEntreAnos(dataframe, anoAtual, anoAnterior);
      }
    } else {
      UmAnoDistinto(dataframe);
    }
  }

  /** Lines 262-266 of `calcular_metricas`: the change between the means of two
      present years, left at 0 unless the earlier mean is positive. */
  method VariacaoEntreAnos(dataframe: seq<Record>, anoAtual: int, anoAnterior: int) returns (variacao: real)
    requires |SalariosDoAno(dataframe, anoAtual)| > 0 && |SalariosDoAno(dataframe, anoAnterior)| > 0
    ensures variacao == VariacaoDe(Media(SalariosDoAno(dataframe, anoAtual)), Media(SalariosDoAno(dataframe, anoAnterior)))
  {
    variacao := 0.0;
    var mediaAtual := Media(SalariosDoAno(dataframe, anoAtual));
    var mediaAnterior := Media(SalariosDoAno(dataframe, anoAnterior));
    if mediaAnterior > 0.0 {
      variacao := (mediaAtual - mediaAnterior) / mediaAnterior * 100.0;
    }
    VariacaoDeCasos(mediaAtual, mediaAnterior);
  }

  /** `calcular_metricas`: the zeroed result for an empty table, otherwise the figures
      of the table. */
  method CalcularMetricas(dataframe: seq<Record>) returns (metricas: Metricas)
    ensures metricas == MetricasDe(dataframe)
    ensures dataframe == [] ==> metricas == METRICAS_VAZIAS
    ensures dataframe != [] ==> metricas.totalRegistros == |dataframe|
                                && 1 <= metricas.numeroCargosUnicos <= |dataframe|
  {
    if dataframe == [] {
      return METRICAS_VAZIAS;
    }
    var salarios := Map(SalarioUsdDe, dataframe);
    var variacao := CalcularVariacao(dataframe);
    var cargos := Map(CargoDe, dataframe);
    metricas := Metricas(
      Media(salarios), Mediana(salarios), Minimo(salarios), Maximo(salarios),
      VarianciaAmostral(salarios), Quantil(salarios, 0.25), Quantil(salarios, 0.75),
      |dataframe|, Moda(cargos), variacao, |Distinct(cargos)|);
    MetricasCoerentes(dataframe);
  }
}
