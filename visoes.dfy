/** The table computations behind the charts of the dashboard (the `criar_grafico_*`
    functions of app.py). Each view is `None` where the chart function returns `None`. */
module Visoes {
  import opened Options
  import opened Dados
  import opened Sequences
  import opened Estatistica
  import opened Grupos

  function Menor(a: nat, b: nat): nat { if a < b then a else b }

  // ------------------------------------------------------------ top titles by mean

  /** `nlargest(n)` followed by `sort_values(ascending=True)`: the `n` groups with the
      largest means (all of them when there are fewer), in ascending order of mean. */
  function MaioresEmOrdem<K(==,!new)>(gs: seq<Grupo<K>>, n: nat): (r: seq<Grupo<K>>)
    ensures |r| == Menor(n, |gs|)
    ensures SortedBy(r, MediaDe)
    ensures forall g :: g in r ==> g in gs
    ensures multiset(r) <= multiset(gs)
    ensures forall g, h :: g in gs && g !in r && h in r ==> g.media <= h.media
  {
    var desc := SortBy(gs, MediaNegada);
    var k := Menor(n, |gs|);
    var r := SortBy(desc[..k], MediaDe);
    MaioresCorretos(gs, desc, k, r);
    r
  }

  /** The groups kept from the first `k` of a descending order are groups of `gs`,
      and every group dropped has a mean no larger than any group kept. */
  lemma MaioresCorretos<K(!new)>(gs: seq<Grupo<K>>, desc: seq<Grupo<K>>, k: nat, r: seq<Grupo<K>>)
    requires multiset(desc) == multiset(gs) && SortedBy(desc, MediaNegada) && k <= |desc|
    requires multiset(r) == multiset(desc[..k])
    ensures forall g :: g in r ==> g in gs
    ensures multiset(r) <= multiset(gs)
    ensures forall g, h :: g in gs && g !in r && h in r ==> g.media <= h.media
  {
    var top := desc[..k];
    assert desc == top + desc[k..];
    assert multiset(desc) == multiset(top) + multiset(desc[k..]);
    forall g | g in r ensures g in gs {
      assert g in multiset(top);
      assert g in multiset(desc);
    }
    forall g, h | g in gs && g !in r && h in r ensures g.media <= h.media {
      assert g in multiset(desc);
      var j :| 0 <= j < |desc| && desc[j] == g;
      assert h in multiset(top);
      var i :| 0 <= i < k && top[i] == h;
      assert g !in multiset(top);
      assert j >= k;
      assert MediaNegada(desc[i]) <= MediaNegada(desc[j]);
    }
  }

  /** `criar_grafico_top_cargos`: the `TOP_CARGOS_LIMITE` titles with the highest mean
      salary, in ascending order of mean; no title left out has a higher mean than a
      title shown. */
  function TopCargos(df: seq<Record>): (r: Option<seq<Grupo<string>>>)
    ensures r.None? <==> df == []
    ensures r.Some? ==> |r.value| == Menor(TOP_CARGOS_LIMITE, |Distinct(Map(CargoDe, df))|)
    ensures r.Some? ==> SortedBy(r.value, MediaDe)
    ensures r.Some? ==> forall g :: g in r.value ==> g in MediaPorGrupo(df, CargoDe)
    ensures r.Some? ==> multiset(r.value) <= multiset(MediaPorGrupo(df, CargoDe))
    ensures r.Some? ==> NoDup(Map(ChaveDe, r.value))
    ensures r.Some? ==> forall g, h :: g in MediaPorGrupo(df, CargoDe) && g !in r.value && h in r.value
                                       ==> g.media <= h.media
  {
    if df == [] then None
    else
      var todos := MediaPorGrupo(df, CargoDe);
      var r := MaioresEmOrdem(todos, TOP_CARGOS_LIMITE);
      ChavesDistintasEmParte(todos, r);
      Some(r)
  }

  /** A non-empty table shows between one and ten titles, each with the mean salary of
      its rows. */
  lemma TopCargosLimites(df: seq<Record>)
    requires df != []
    ensures TopCargos(df).Some?
    ensures 1 <= |TopCargos(df).value| <= TOP_CARGOS_LIMITE
    ensures forall i :: 0 <= i < |TopCargos(df).value| ==> MediaCorreta(df, CargoDe, TopCargos(df).value[i])
  {
    var todos := MediaPorGrupo(df, CargoDe);
    var r := TopCargos(df).value;
    assert |Distinct(Map(CargoDe, df))| >= 1 by {
      assert Map(CargoDe, df)[0] in Distinct(Map(CargoDe, df));
    }
    assert forall g :: g in r ==> g in todos;
    GruposContidos(df, CargoDe, todos, r);
  }

  // ---------------------------------------------------------------- remote buckets

  /** `criar_grafico_tipos_trabalho`: `value_counts()` of the remote column, most
      frequent first. Every value present appears with its number of rows, and the
      counts add up to the number of rows. */
  function ContagemRemota(df: seq<Record>): (r: Option<seq<Contagem<Remote>>>)
    ensures r.None? <==> df == []
    ensures r.Some? ==> forall i, j :: 0 <= i < j < |r.value| ==> r.value[i].quantidade >= r.value[j].quantidade
    ensures r.Some? ==> forall k :: k in Map(ChaveDaContagem, r.value) <==> k in Map(RemotaDe, df)
    ensures r.Some? ==> forall c :: c in r.value ==> c.quantidade == multiset(Map(RemotaDe, df))[c.chave]
    ensures r.Some? ==> SumBy(r.value, QuantidadeDe) == |df|
  {
    if df == [] then None
    else
      var contagens := ContagemPorValor(df, RemotaDe);
      var ordenadas := SortBy(contagens, QuantidadeNegada);
      ContagensReordenadas(contagens, ordenadas, multiset(Map(RemotaDe, df)));
      Some(ordenadas)
  }

  /** Counts sorted by `QuantidadeNegada` are in descending order of count, with the
      same keys, the same counts and the same total. */
  lemma ContagensReordenadas<K(!new)>(a: seq<Contagem<K>>, b: seq<Contagem<K>>, m: multiset<K>)
    requires multiset(a) == multiset(b) && SortedBy(b, QuantidadeNegada)
    requires forall i :: 0 <= i < |a| ==> a[i].quantidade == m[a[i].chave]
    ensures forall i, j :: 0 <= i < j < |b| ==> b[i].quantidade >= b[j].quantidade
    ensures forall k :: k in Map(ChaveDaContagem, b) <==> k in Map(ChaveDaContagem, a)
    ensures forall c :: c in b ==> c.quantidade == m[c.chave]
    ensures SumBy(b, QuantidadeDe) == SumBy(a, QuantidadeDe)
  {
    assert forall i, j :: 0 <= i < j < |b| ==> QuantidadeNegada(b[i]) <= QuantidadeNegada(b[j]);
    MapPermutation(ChaveDaContagem, a, b);
    forall c | c in b ensures c.quantidade == m[c.chave] {
      assert c in multiset(a);
      var i :| 0 <= i < |a| && a[i] == c;
    }
    SumByPermutation(a, b, QuantidadeDe);
  }

  /** `criar_grafico_salario_por_tipo_trabalho`: the mean salary of every remote value
      present, highest first. */
  function SalarioPorTipoTrabalho(df: seq<Record>): (r: Option<seq<Grupo<Remote>>>)
    ensures r.None? <==> df == []
    ensures r.Some? ==> forall i, j :: 0 <= i < j < |r.value| ==> r.value[i].media >= r.value[j].media
    ensures r.Some? ==> multiset(r.value) == multiset(MediaPorGrupo(df, RemotaDe))
    ensures r.Some? ==> forall k :: k in Map(ChaveDe, r.value) <==> k in Map(RemotaDe, df)
    ensures r.Some? ==> forall i :: 0 <= i < |r.value| ==> MediaCorreta(df, RemotaDe, r.value[i])
  {
    if df == [] then None
    else
      var grupos := MediaPorGrupo(df, RemotaDe);
      var ordenados := SortBy(grupos, MediaNegada);
      GruposReordenados(df, RemotaDe, grupos, ordenados);
      Some(ordenados)
  }

  /** Groups sorted by `MediaNegada` are in descending order of mean, with the same
      keys and the same means. */
  lemma GruposReordenados<K(!new)>(df: seq<Record>, key: Record -> K, a: seq<Grupo<K>>, b: seq<Grupo<K>>)
    requires multiset(a) == multiset(b) && SortedBy(b, MediaNegada)
    requires forall i :: 0 <= i < |a| ==> MediaCorreta(df, key, a[i])
    ensures forall i, j :: 0 <= i < j < |b| ==> b[i].media >= b[j].media
    ensures forall k :: k in Map(ChaveDe, b) <==> k in Map(ChaveDe, a)
    ensures forall i :: 0 <= i < |b| ==> MediaCorreta(df, key, b[i])
  {
    assert forall i, j :: 0 <= i < j < |b| ==> MediaNegada(b[i]) <= MediaNegada(b[j]);
    MapPermutation(ChaveDe, a, b);
    forall g | g in b ensures g in a {
      assert g in multiset(a);
    }
    GruposContidos(df, key, a, b);
  }

  // ------------------------------------------------------------ country view

  predicate EhCientistaDeDados(r: Record)
  {
    r.cargo == CARGO_DATA_SCIENTIST
  }

  /** `criar_grafico_salario_por_pais`: the mean salary per country of residence of the
      rows whose title is the translated Data Scientist title; `None` when there is
      no such row. */
  function MediaPorPais(df: seq<Record>): (r: Option<seq<Grupo<string>>>)
    ensures r.None? <==> forall i :: 0 <= i < |df| ==> df[i].cargo != CARGO_DATA_SCIENTIST
    ensures r.Some? ==> NoDup(Map(ChaveDe, r.value))
    ensures r.Some? ==> forall k :: k in Map(ChaveDe, r.value) <==>
                          exists i :: 0 <= i < |df| && df[i].cargo == CARGO_DATA_SCIENTIST && df[i].residencia == k
    ensures r.Some? ==> forall i :: 0 <= i < |r.value| ==>
                          MediaCorreta(Filter(EhCientistaDeDados, df), ResidenciaDe, r.value[i])
  {
    var cientistas := Filter(EhCientistaDeDados, df);
    ResidenciasDosCientistas(df, cientistas);
    if df == [] || cientistas == [] then None
    else Some(MediaPorGrupo(cientistas, ResidenciaDe))
  }

  /** The Data Scientist rows are empty exactly when no row has that title, and their
      residences are those of the rows with that title. */
  lemma ResidenciasDosCientistas(df: seq<Record>, cientistas: seq<Record>)
    requires forall x :: x in cientistas <==> x in df && EhCientistaDeDados(x)
    ensures cientistas == [] <==> forall i :: 0 <= i < |df| ==> df[i].cargo != CARGO_DATA_SCIENTIST
    ensures forall k :: k in Map(ResidenciaDe, cientistas) <==>
                          exists i :: 0 <= i < |df| && df[i].cargo == CARGO_DATA_SCIENTIST && df[i].residencia == k
  {
    if cientistas != [] {
      assert cientistas[0] in df;
      var i :| 0 <= i < |df| && df[i] == cientistas[0];
    }
    forall i | 0 <= i < |df| && df[i].cargo == CARGO_DATA_SCIENTIST ensures cientistas != [] {
      assert df[i] in cientistas;
    }
    forall k ensures k in Map(ResidenciaDe, cientistas) <==>
                       exists i :: 0 <= i < |df| && df[i].cargo == CARGO_DATA_SCIENTIST && df[i].residencia == k {
      if k in Map(ResidenciaDe, cientistas) {
        var j :| 0 <= j < |cientistas| && Map(ResidenciaDe, cientistas)[j] == k;
        assert cientistas[j] in df;
        var i :| 0 <= i < |df| && df[i] == cientistas[j];
      }
      if exists i :: 0 <= i < |df| && df[i].cargo == CARGO_DATA_SCIENTIST && df[i].residencia == k {
        var i :| 0 <= i < |df| && df[i].cargo == CARGO_DATA_SCIENTIST && df[i].residencia == k;
        assert df[i] in cientistas;
        var j :| 0 <= j < |cientistas| && cientistas[j] == df[i];
        assert Map(ResidenciaDe, cientistas)[j] == k;
      }
    }
  }

  // ------------------------------------------------------------ seniority order

  /** The order of `ordem_senioridade` in `criar_grafico_boxplot_senioridade`. */
  const ORDEM_SENIORIDADE: seq<string> := ["junior", "Pleno", "Senior", "executivo"]

  /** The position of `s` in `ordem`, or `|ordem|` for a value outside it (a categorical
      NaN, which `sort_values` puts last). */
  function PostoEm(s: string, ordem: seq<string>): (p: nat)
    ensures p <= |ordem|
    ensures p < |ordem| ==> ordem[p] == s && forall j :: 0 <= j < p ==> ordem[j] != s
    ensures p == |ordem| <==> s !in ordem
  {
    if ordem == [] then 0
    else if ordem[0] == s then 0
    else 1 + PostoEm(s, ordem[1..])
  }

  function Posto(s: string): nat
  {
    PostoEm(s, ORDEM_SENIORIDADE)
  }

  function PostoDoRegistro(r: Record): real
  {
    Posto(r.senioridade) as real
  }

  /** The four levels take the positions 0 to 3 and every other value position 4. */
  lemma PostosDosNiveis(s: string)
    ensures Posto("junior") == 0 && Posto("Pleno") == 1 && Posto("Senior") == 2 && Posto("executivo") == 3
    ensures s !in ORDEM_SENIORIDADE ==> Posto(s) == 4
  {
    var o := ORDEM_SENIORIDADE;
    assert o[0] == "junior" && o[1] == "Pleno" && o[2] == "Senior" && o[3] == "executivo";
    assert "junior" != "Pleno" && "junior" != "Senior" && "Pleno" != "Senior";
    assert "executivo" != "junior" && "executivo" != "Pleno" && "executivo" != "Senior";
  }

  /** The rows of the box plot: the same rows, ordered junior, Pleno, Senior,
      executivo, then any other level. */
  function OrdenarPorSenioridade(df: seq<Record>): (r: Option<seq<Record>>)
    ensures r.None? <==> df == []
    ensures r.Some? ==> multiset(r.value) == multiset(df)
    ensures r.Some? ==> forall i, j :: 0 <= i < j < |r.value| ==>
                          Posto(r.value[i].senioridade) <= Posto(r.value[j].senioridade)
  {
    if df == [] then None
    else
      var v := SortBy(df, PostoDoRegistro);
      assert forall i, j :: 0 <= i < j < |v| ==> PostoDoRegistro(v[i]) <= PostoDoRegistro(v[j]);
      Some(v)
  }

  // ------------------------------------------------------------ trend per year

  /** One row of `groupby('ano')['salario_usd'].agg(['mean', 'median', 'count'])`. */
  datatype Ponto = Ponto(ano: int, media: real, mediana: real, contagem: nat)

  function AnoDoPonto(p: Ponto): int { p.ano }
  function ContagemDoPonto(p: Ponto): int { p.contagem }

  /** `p` summarizes the rows of its year: their count, mean and median salary. */
  predicate PontoCorreto(df: seq<Record>, p: Ponto)
  {
    var s := SalariosDoGrupo(df, AnoDe, p.ano);
    |s| > 0 && p.contagem == |s| && p.media == Media(s) && p.mediana == Mediana(s)
  }

  /** The summary of year `y`; a year without rows (which the view never asks for)
      gets an empty summary. */
  function PontoDoAno(df: seq<Record>, y: int): (p: Ponto)
    ensures p.ano == y
    ensures y in Map(AnoDe, df) ==> PontoCorreto(df, p) && p.contagem == multiset(Map(AnoDe, df))[y]
  {
    TamanhoDoGrupo(df, AnoDe, y);
    var s := SalariosDoGrupo(df, AnoDe, y);
    if |s| > 0 then Ponto(y, Media(s), Mediana(s), |s|) else Ponto(y, 0.0, 0.0, 0)
  }

  /** The summaries of the years `anos`, in the order of `anos`. */
  function PontosDe(df: seq<Record>, anos: seq<int>): seq<Ponto>
  {
    Map(y => PontoDoAno(df, y), anos)
  }

  /** Per-year summaries of years that occur: in the order of the years given, each
      correct, with counts adding up to the occurrences of those years. */
  lemma PontosCorretos(df: seq<Record>, anos: seq<int>, r: seq<Ponto>)
    requires |r| == |anos| && forall i :: 0 <= i < |r| ==> r[i] == PontoDoAno(df, anos[i])
    requires forall i :: 0 <= i < |anos| ==> anos[i] in Map(AnoDe, df)
    ensures Map(AnoDoPonto, r) == anos
    ensures forall i :: 0 <= i < |r| ==> PontoCorreto(df, r[i])
    ensures SumBy(r, ContagemDoPonto) == SumCounts(anos, multiset(Map(AnoDe, df)))
  {
    assert forall i :: 0 <= i < |r| ==> Map(AnoDoPonto, r)[i] == anos[i];
    SomaDasContagens(r, anos, multiset(Map(AnoDe, df)));
  }

  /** Counts that are the multiplicities of `anos` add up to their sum. */
  lemma {:induction false} SomaDasContagens(r: seq<Ponto>, anos: seq<int>, m: multiset<int>)
    requires |r| == |anos| && forall i :: 0 <= i < |r| ==> r[i].contagem == m[anos[i]]
    ensures SumBy(r, ContagemDoPonto) == SumCounts(anos, m)
    decreases |r|
  {
    if r != [] {
      SomaDasContagens(r[1..], anos[1..], m);
    }
  }

  /** What the trend view promises: one summary per year present, in strictly
      ascending order of year, each correct, counting every row once. */
  ghost predicate TendenciaCorreta(df: seq<Record>, r: seq<Ponto>)
  {
    && (forall i, j :: 0 <= i < j < |r| ==> r[i].ano < r[j].ano)
    && (forall y :: y in Map(AnoDoPonto, r) <==> y in Map(AnoDe, df))
    && (forall i :: 0 <= i < |r| ==> PontoCorreto(df, r[i]))
    && SumBy(r, ContagemDoPonto) == |df|
  }

  /** `criar_grafico_tendencia_temporal`: `None` unless the table has two different
      years; otherwise one summary per year present, in strictly ascending order of
      year, whose counts add up to the number of rows. */
  function TendenciaTemporal(df: seq<Record>): (r: Option<seq<Ponto>>)
    ensures r.None? <==> forall i, j :: 0 <= i < |df| && 0 <= j < |df| ==> df[i].ano == df[j].ano
    ensures r.Some? ==> TendenciaCorreta(df, r.value)
  {
    var unicos := Distinct(Map(AnoDe, df));
    AnosIguais(df);
    if df == [] || |unicos| < 2 then None
    else
      TendenciaDosDistintos(df);
      Some(PontosDe(df, Ordenados(unicos)))
  }

  /** The summaries of the sorted distinct years form a correct trend. */
  lemma TendenciaDosDistintos(df: seq<Record>)
    ensures TendenciaCorreta(df, PontosDe(df, Ordenados(Distinct(Map(AnoDe, df)))))
  {
    var unicos := Distinct(Map(AnoDe, df));
    var anos := Ordenados(unicos);
    TendenciaDosAnos(df, unicos, anos, PontosDe(df, anos));
  }

  /** The summaries of the sorted distinct years are strictly ascending, cover the
      years present, are each correct and count every row once. */
  lemma TendenciaDosAnos(df: seq<Record>, unicos: seq<int>, anos: seq<int>, r: seq<Ponto>)
    requires NoDup(unicos) && forall y :: y in unicos <==> y in Map(AnoDe, df)
    requires multiset(anos) == multiset(unicos) && Ascendente(anos)
    requires |r| == |anos| && forall i :: 0 <= i < |r| ==> r[i] == PontoDoAno(df, anos[i])
    ensures TendenciaCorreta(df, r)
  {
    AnosOrdenados(df, unicos, anos);
    CountsAddUp(anos, Map(AnoDe, df));
    PontosCorretos(df, anos, r);
    TendenciaDosPontos(df, anos, r);
  }

  lemma TendenciaDosPontos(df: seq<Record>, anos: seq<int>, r: seq<Ponto>)
    requires Map(AnoDoPonto, r) == anos
    requires forall i, j :: 0 <= i < j < |anos| ==> anos[i] < anos[j]
    requires forall y :: y in anos <==> y in Map(AnoDe, df)
    requires forall i :: 0 <= i < |r| ==> PontoCorreto(df, r[i])
    requires SumBy(r, ContagemDoPonto) == SumCounts(anos, multiset(Map(AnoDe, df)))
    requires SumCounts(anos, multiset(Map(AnoDe, df))) == |df|
    ensures TendenciaCorreta(df, r)
  {
    AnosDosPontos(r, anos);
  }

  /** Fewer than two distinct years means every row has the same year. */
  lemma AnosIguais(df: seq<Record>)
    ensures |Distinct(Map(AnoDe, df))| < 2 <==>
            forall i, j :: 0 <= i < |df| && 0 <= j < |df| ==> df[i].ano == df[j].ano
  {
    var anos := Map(AnoDe, df);
    var unicos := Distinct(anos);
    if |unicos| >= 2 {
      assert unicos[0] != unicos[1];
      assert unicos[0] in anos && unicos[1] in anos;
      var i :| 0 <= i < |df| && anos[i] == unicos[0];
      var j :| 0 <= j < |df| && anos[j] == unicos[1];
    } else {
      forall i, j | 0 <= i < |df| && 0 <= j < |df| ensures df[i].ano == df[j].ano {
        if df[i].ano != df[j].ano {
          assert anos[i] == df[i].ano && anos[j] == df[j].ano;
          TwoValuesTwoDistinct(anos, df[i].ano, df[j].ano);
        }
      }
    }
  }

  /** The sorted distinct years are strictly ascending and are the years present. */
  lemma AnosOrdenados(df: seq<Record>, unicos: seq<int>, anos: seq<int>)
    requires NoDup(unicos) && forall y :: y in unicos <==> y in Map(AnoDe, df)
    requires multiset(anos) == multiset(unicos) && Ascendente(anos)
    ensures NoDup(anos)
    ensures forall i, j :: 0 <= i < j < |anos| ==> anos[i] < anos[j]
    ensures forall y :: y in anos <==> y in Map(AnoDe, df)
    ensures forall i :: 0 <= i < |anos| ==> anos[i] in Map(AnoDe, df)
  {
    NoDupPermutation(unicos, anos);
    forall y ensures y in anos <==> y in Map(AnoDe, df) {
      assert y in anos <==> y in multiset(anos);
      assert y in unicos <==> y in multiset(unicos);
    }
  }

  /** Summaries listed in the order of strictly ascending years are strictly ascending. */
  lemma AnosDosPontos(r: seq<Ponto>, anos: seq<int>)
    requires Map(AnoDoPonto, r) == anos
    requires forall i, j :: 0 <= i < j < |anos| ==> anos[i] < anos[j]
    ensures forall i, j :: 0 <= i < j < |r| ==> r[i].ano < r[j].ano
  {
    forall i, j | 0 <= i < j < |r| ensures r[i].ano < r[j].ano {
      assert anos[i] == r[i].ano && anos[j] == r[j].ano;
    }
  }

  /** Each year's median lies between the smallest and the largest salary of that year. */
  lemma MedianaDoAnoLimitada(df: seq<Record>, p: Ponto)
    requires PontoCorreto(df, p)
    ensures Minimo(SalariosDoGrupo(df, AnoDe, p.ano)) as real <= p.mediana
            <= Maximo(SalariosDoGrupo(df, AnoDe, p.ano)) as real
  {
    QuartisOrdenados(SalariosDoGrupo(df, AnoDe, p.ano));
  }
}
