/** `gerar_insights` (app.py, lines 576-656): an ordered battery of threshold rules
    over the metrics and the table. Each message is a tagged value carrying the figure
    the text would show. */
module Insights {
  import opened Options
  import opened Dados
  import opened Sequences
  import opened Estatistica
  import opened Grupos
  import opened Metricas

  datatype Insight =
    | SemDados
    | Crescimento(percentual: real)
    | Reducao(percentual: real)
    | AltaVariabilidade(variancia: real, media: real)
    | DistribuicaoAssimetrica
    | TrabalhoRemoto(percentual: real)
    | TrabalhoPresencial(percentual: real)
    | GapSenioridade(maior: string, menor: string, gap: Option<real>)
    | AnaliseOsGraficos

  function Abs(x: real): real { if x < 0.0 then -x else x }

  /** The rule a message comes from, numbered in the order the rules run: 0 for the
      empty table, 1 to 5 for the five rules, 6 for the fallback. */
  function Regra(i: Insight): nat
  {
    match i
    case SemDados => 0
    case Crescimento(_) => 1
    case Reducao(_) => 1
    case AltaVariabilidade(_, _) => 2
    case DistribuicaoAssimetrica => 3
    case TrabalhoRemoto(_) => 4
    case TrabalhoPresencial(_) => 4
    case GapSenioridade(_, _, _) => 5
    case AnaliseOsGraficos => 6
  }

  // ------------------------------------------------------------------ the rules

  /** Rule 1: a non-zero change, as growth or as a reduction by its absolute value. */
  function RegraVariacao(m: Metricas): Option<Insight>
  {
    var v := m.variacaoAnoAnterior;
    if v != 0.0 then (if v > 0.0 then Some(Crescimento(v)) else Some(Reducao(Abs(v))))
    else None
  }

  /** Rule 2: a coefficient of variation above 50 percent, which for a positive mean
      is a variance above a quarter of the squared mean (see `CoeficienteDeVariacao`).
      With no variance (pandas' NaN) the rule does not fire. */
  function RegraVariabilidade(m: Metricas): Option<Insight>
  {
    var media := m.salarioMedio;
    if media > 0.0 && m.variancia.Some? && m.variancia.value > media * media / 4.0
    then Some(AltaVariabilidade(m.variancia.value, media))
    else None
  }

  /** Rule 3: a mean above the median by more than 10 percent of the mean. */
  function RegraAssimetria(m: Metricas): Option<Insight>
  {
    var media := m.salarioMedio;
    if Abs(media - m.salarioMediano) > media * 0.1 && media > m.salarioMediano
    then Some(DistribuicaoAssimetrica)
    else None
  }

  /** The mean salary of the rows of a work mode; `None` (pandas' NaN) for no rows. */
  function MediaDoModo(df: seq<Record>, modo: string): Option<real>
  {
    var s := SalariosDoGrupo(df, RemotaDe, Mode(modo));
    if |s| > 0 then Some(Media(s)) else None
  }

  /** A mode has a mean exactly when some row has it, and the mean is its group's. */
  lemma MediaDoModoPresente(df: seq<Record>, modo: string)
    ensures MediaDoModo(df, modo).Some? <==> Mode(modo) in Map(RemotaDe, df)
    ensures MediaDoModo(df, modo).Some? ==>
              MediaCorreta(df, RemotaDe, Grupo(Mode(modo), MediaDoModo(df, modo).value))
  {
    TamanhoDoGrupo(df, RemotaDe, Mode(modo));
  }

  /** The relative gap, in percent, of remote over on-site pay. */
  function DiferencaPercentual(remoto: real, presencial: real): real
    requires presencial > 0.0
  {
    (remoto - presencial) / presencial * 100.0
  }

  /** Rule 4: both modes present with positive means and a gap above 5 percent,
      credited to the mode that earns more. */
  function RegraTrabalho(df: seq<Record>): Option<Insight>
  {
    RegraModos(MediaDoModo(df, "Remoto"), MediaDoModo(df, "Presencial"))
  }

  /** Rule 4 on the two means. */
  function RegraModos(remoto: Option<real>, presencial: Option<real>): Option<Insight>
  {
    if remoto.Some? && remoto.value > 0.0 && presencial.Some? && presencial.value > 0.0 then
      var d := DiferencaPercentual(remoto.value, presencial.value);
      if Abs(d) > 5.0 then (if d > 0.0 then Some(TrabalhoRemoto(d)) else Some(TrabalhoPresencial(Abs(d))))
      else None
    else None
  }

  /** `groupby('senioridade')['salario_usd'].mean().sort_values(ascending=False)`. */
  function PorSenioridade(df: seq<Record>): seq<Grupo<string>>
  {
    SortBy(MediaPorGrupo(df, SenioridadeDe), MediaNegada)
  }

  /** The seniority groups are the groups of the column, in descending order of mean. */
  lemma PorSenioridadeOrdenada(df: seq<Record>)
    ensures forall i, j :: 0 <= i < j < |PorSenioridade(df)| ==>
              PorSenioridade(df)[i].media >= PorSenioridade(df)[j].media
    ensures multiset(PorSenioridade(df)) == multiset(MediaPorGrupo(df, SenioridadeDe))
  {
    var r := PorSenioridade(df);
    assert forall i, j :: 0 <= i < j < |r| ==> MediaNegada(r[i]) <= MediaNegada(r[j]);
  }

  /** The seniority gap in percent; `None` where the source divides by a zero mean. */
  function Gap(maior: real, menor: real): (r: Option<real>)
    ensures r.None? <==> menor == 0.0
  {
    if menor != 0.0 then Some((maior - menor) / menor * 100.0) else None
  }

  /** Rule 5: with two seniority groups or more, the gap from the lowest-paid to the
      highest-paid level. */
  function RegraSenioridade(df: seq<Record>): Option<Insight>
  {
    RegraGrupos(PorSenioridade(df))
  }

  /** Rule 5 on the groups in descending order of mean. */
  function RegraGrupos(grupos: seq<Grupo<string>>): Option<Insight>
  {
    if |grupos| > 1 then
      var maior, menor := grupos[0], grupos[|grupos| - 1];
      Some(GapSenioridade(maior.chave, menor.chave, Gap(maior.media, menor.media)))
    else None
  }

  function ComoLista(o: Option<Insight>): seq<Insight>
  {
    if o.Some? then [o.value] else []
  }

  /** The messages of the five rules, in the order they run. */
  function Achados(df: seq<Record>, m: Metricas): seq<Insight>
  {
    Juntar(RegraVariacao(m), RegraVariabilidade(m), RegraAssimetria(m), RegraTrabalho(df), RegraSenioridade(df))
  }

  function Juntar(a: Option<Insight>, b: Option<Insight>, c: Option<Insight>, d: Option<Insight>,
                  e: Option<Insight>): seq<Insight>
  {
    ComoLista(a) + ComoLista(b) + ComoLista(c) + ComoLista(d) + ComoLista(e)
  }

  /** The messages for a table and its metrics. */
  function Insights(df: seq<Record>, m: Metricas): seq<Insight>
  {
    Resultado(df == [], Achados(df, m))
  }

  /** The list returned: the no-data message for an empty table, else the findings, or
      the fallback message when there are none. */
  function Resultado(vazio: bool, achados: seq<Insight>): seq<Insight>
  {
    if vazio then [SemDados]
    else if achados == [] then [AnaliseOsGraficos] else achados
  }

  /** `gerar_insights`: the list built by appending, rule after rule. */
  method GerarInsights(dataframe: seq<Record>, metricas: Metricas) returns (insights: seq<Insight>)
    ensures insights == Insights(dataframe, metricas)
    ensures dataframe == [] ==> insights == [SemDados]
    ensures |insights| >= 1
  {
    insights := [];
    if dataframe == [] {
      return [SemDados];
    }
    var variacao := metricas.variacaoAnoAnterior;
    if variacao != 0.0 {
      if variacao > 0.0 {
        insights := insights + [Crescimento(variacao)];
      } else {
        insights := insights + [Reducao(Abs(variacao))];
      }
    }
    assert insights == ComoLista(RegraVariacao(metricas));
    ghost var antes := insights;
    var media := metricas.salarioMedio;
    if media > 0.0 && metricas.variancia.Some? && metricas.variancia.value > media * media / 4.0 {
      insights := insights + [AltaVariabilidade(metricas.variancia.value, media)];
    }
    assert insights == antes + ComoLista(RegraVariabilidade(metricas));
    antes := insights;
    var diferencaMedianaMedia := Abs(media - metricas.salarioMediano);
    if diferencaMedianaMedia > media * 0.1 {
      if media > metricas.salarioMediano {
        insights := insights + [DistribuicaoAssimetrica];
      }
    }
    assert insights == antes + ComoLista(RegraAssimetria(metricas));
    antes := insights;
    insights := AnexarTrabalho(dataframe, insights);
    assert insights == antes + ComoLista(RegraTrabalho(dataframe));
    antes := insights;
    insights := AnexarSenioridade(dataframe, insights);
    assert insights == antes + ComoLista(RegraSenioridade(dataframe));
    assert insights == Achados(dataframe, metricas);
    if insights == [] {
      insights := insights + [AnaliseOsGraficos];
    }
  }

  /** Rule 4 of `gerar_insights`: the remote and on-site means and their comparison. */
  method AnexarTrabalho(dataframe: seq<Record>, antes: seq<Insight>) returns (insights: seq<Insight>)
    ensures insights == antes + ComoLista(RegraTrabalho(dataframe))
  {
    insights := antes;
    var salarioRemoto := MediaDoModo(dataframe, "Remoto");
    var salarioPresencial := MediaDoModo(dataframe, "Presencial");
    if salarioRemoto.Some? && salarioRemoto.value > 0.0 && salarioPresencial.Some? && salarioPresencial.value > 0.0 {
      var diferenca := DiferencaPercentual(salarioRemoto.value, salarioPresencial.value);
      if Abs(diferenca) > 5.0 {
        if diferenca > 0.0 {
          insights := insights + [TrabalhoRemoto(diferenca)];
        } else {
          insights := insights + [TrabalhoPresencial(Abs(diferenca))];
        }
      }
    }
  }

  /** Rule 5 of `gerar_insights`: the gap between the best- and the worst-paid level. */
  method AnexarSenioridade(dataframe: seq<Record>, antes: seq<Insight>) returns (insights: seq<Insight>)
    ensures insights == antes + ComoLista(RegraSenioridade(dataframe))
  {
    insights := antes;
    var porSenioridade := PorSenioridade(dataframe);
    if |porSenioridade| > 1 {
      var maior := porSenioridade[0];
      var menor := porSenioridade[|porSenioridade| - 1];
      var gap := GapSenioridade(maior.chave, menor.chave, Gap(maior.media, menor.media));
      insights := insights + [gap];
    }
  }

  // ------------------------------------------------------------------ properties

  /** The coefficient of variation `sd / media * 100` exceeds 50 exactly when the
      variance exceeds a quarter of the squared mean, so rule 2 may be stated on the
      variance. */
  lemma CoeficienteDeVariacao(sd: real, variancia: real, media: real)
    requires sd >= 0.0 && sd * sd == variancia && media > 0.0
    ensures sd / media * 100.0 > 50.0 <==> variancia > media * media / 4.0
  {
    var q := sd / media;
    var metade := media / 2.0;
    assert sd == q * media;
    assert media * media / 4.0 == metade * metade;
    if sd > metade {
      DivisaoMonotona(metade, sd, media);
      assert metade / media == 0.5;
      assert q * 100.0 > 50.0;
      assert sd * sd > metade * sd >= metade * metade;
    } else {
      if sd < metade { DivisaoMonotona(sd, metade, media); }
      assert metade / media == 0.5;
      assert q * 100.0 <= 50.0;
      assert sd * sd <= metade * sd <= metade * metade;
    }
  }

  lemma DivisaoMonotona(x: real, y: real, c: real)
    requires c > 0.0 && x < y
    ensures x / c < y / c
  {
    assert y / c - x / c == (y - x) / c;
  }

  /** A rule's output, if any, carries the rule's number. */
  predicate Numerada(o: Option<Insight>, n: nat)
  {
    o.Some? ==> Regra(o.value) == n
  }

  lemma MetricasNumeradas(m: Metricas)
    ensures Numerada(RegraVariacao(m), 1) && Numerada(RegraVariabilidade(m), 2) && Numerada(RegraAssimetria(m), 3)
  {
  }

  lemma ModosNumerados(remoto: Option<real>, presencial: Option<real>)
    ensures Numerada(RegraModos(remoto, presencial), 4)
  {
  }

  lemma GruposNumerados(grupos: seq<Grupo<string>>)
    ensures Numerada(RegraGrupos(grupos), 5)
  {
  }

  /** The rule numbers strictly increase along `s`. */
  predicate Crescente(s: seq<Insight>)
  {
    forall i, k :: 0 <= i < k < |s| ==> Regra(s[i]) < Regra(s[k])
  }

  /** Every message of `s` comes from a rule numbered below `n`. */
  predicate Abaixo(s: seq<Insight>, n: nat)
  {
    forall i :: 0 <= i < |s| ==> Regra(s[i]) < n
  }

  /** Appending the output of rule `n` after messages of lower rules keeps the numbers
      increasing. */
  lemma Acrescentar(s: seq<Insight>, o: Option<Insight>, n: nat)
    requires Crescente(s) && Abaixo(s, n) && Numerada(o, n)
    ensures Crescente(s + ComoLista(o)) && Abaixo(s + ComoLista(o), n + 1)
  {
    var r := s + ComoLista(o);
    forall i | 0 <= i < |r| ensures Regra(r[i]) < n + 1 {
      if i < |s| { assert r[i] == s[i]; }
    }
    forall i, k | 0 <= i < k < |r| ensures Regra(r[i]) < Regra(r[k]) {
      if k < |s| {
        assert r[i] == s[i] && r[k] == s[k];
      } else {
        assert r[i] == s[i];
      }
    }
  }

  /** Five numbered rule outputs, joined: the numbers strictly increase along the list. */
  lemma JuntarEmOrdem(a: Option<Insight>, b: Option<Insight>, c: Option<Insight>, d: Option<Insight>,
                      e: Option<Insight>)
    requires Numerada(a, 1) && Numerada(b, 2) && Numerada(c, 3) && Numerada(d, 4) && Numerada(e, 5)
    ensures Crescente(Juntar(a, b, c, d, e))
  {
    Acrescentar([], a, 1);
    assert [] + ComoLista(a) == ComoLista(a);
    Acrescentar(ComoLista(a), b, 2);
    Acrescentar(ComoLista(a) + ComoLista(b), c, 3);
    Acrescentar(ComoLista(a) + ComoLista(b) + ComoLista(c), d, 4);
    Acrescentar(ComoLista(a) + ComoLista(b) + ComoLista(c) + ComoLista(d), e, 5);
  }

  /** Five joined outputs are empty exactly when no rule gave anything, and never hold
      the no-data message. */
  lemma JuntarVazio(a: Option<Insight>, b: Option<Insight>, c: Option<Insight>, d: Option<Insight>,
                    e: Option<Insight>)
    requires Numerada(a, 1) && Numerada(b, 2) && Numerada(c, 3) && Numerada(d, 4) && Numerada(e, 5)
    ensures Juntar(a, b, c, d, e) == [] <==> a.None? && b.None? && c.None? && d.None? && e.None?
    ensures SemDados !in Juntar(a, b, c, d, e) && AnaliseOsGraficos !in Juntar(a, b, c, d, e)
  {
    ListaNumerada(a, 1);
    ListaNumerada(b, 2);
    ListaNumerada(c, 3);
    ListaNumerada(d, 4);
    ListaNumerada(e, 5);
  }

  /** One numbered rule output as a list: empty exactly when the rule gave nothing,
      and never one of the two fixed messages. */
  lemma ListaNumerada(o: Option<Insight>, n: nat)
    requires Numerada(o, n) && 1 <= n <= 5
    ensures ComoLista(o) == [] <==> o.None?
    ensures SemDados !in ComoLista(o) && AnaliseOsGraficos !in ComoLista(o)
  {
  }

  /** The list returned for five numbered rule outputs: the no-data message exactly
      for an empty table, never an empty list, rule numbers strictly increasing, and
      the fallback exactly when the table is non-empty and no rule gave anything, in
      which case it is the whole list. */
  lemma ResultadoNumerado(vazio: bool, a: Option<Insight>, b: Option<Insight>, c: Option<Insight>,
                          d: Option<Insight>, e: Option<Insight>)
    requires Numerada(a, 1) && Numerada(b, 2) && Numerada(c, 3) && Numerada(d, 4) && Numerada(e, 5)
    ensures Resultado(vazio, Juntar(a, b, c, d, e)) == [SemDados] <==> vazio
    ensures |Resultado(vazio, Juntar(a, b, c, d, e))| >= 1
    ensures Crescente(Resultado(vazio, Juntar(a, b, c, d, e)))
    ensures AnaliseOsGraficos in Resultado(vazio, Juntar(a, b, c, d, e)) <==>
              !vazio && a.None? && b.None? && c.None? && d.None? && e.None?
    ensures AnaliseOsGraficos in Resultado(vazio, Juntar(a, b, c, d, e)) ==>
              Resultado(vazio, Juntar(a, b, c, d, e)) == [AnaliseOsGraficos]
  {
    var j := Juntar(a, b, c, d, e);
    JuntarEmOrdem(a, b, c, d, e);
    JuntarVazio(a, b, c, d, e);
    if !vazio && j != [] {
      assert j[0] in j;
    }
  }

  /** On a non-empty table, a message is returned exactly when one of the five rules
      gave it, or it is the fallback and none of them gave anything. */
  lemma ResultadoMembro(a: Option<Insight>, b: Option<Insight>, c: Option<Insight>, d: Option<Insight>,
                        e: Option<Insight>, i: Insight)
    ensures i in Resultado(false, Juntar(a, b, c, d, e)) <==>
              a == Some(i) || b == Some(i) || c == Some(i) || d == Some(i) || e == Some(i)
              || (i == AnaliseOsGraficos && a.None? && b.None? && c.None? && d.None? && e.None?)
  {
  }

  /** The list for given rule inputs: `vazio` for an empty table, the metrics, the two
      mode means and the seniority groups in descending order. */
  function Sobre(vazio: bool, m: Metricas, remoto: Option<real>, presencial: Option<real>,
                 grupos: seq<Grupo<string>>): seq<Insight>
  {
    Resultado(vazio, Juntar(RegraVariacao(m), RegraVariabilidade(m), RegraAssimetria(m), RegraModos(remoto, presencial),
                            RegraGrupos(grupos)))
  }

  /** The list of a table is the list for the table's own rule inputs. */
  lemma InsightsPorPartes(df: seq<Record>, m: Metricas)
    ensures Insights(df, m) == Sobre(df == [], m, MediaDoModo(df, "Remoto"), MediaDoModo(df, "Presencial"), PorSenioridade(df))
  {
  }

  /** An empty table gives the single no-data message, and only an empty table does;
      there is always at least one message; the rules run in order and each at most
      once, so along the list the rule numbers strictly increase; the fallback
      appears exactly when the table is non-empty and no rule fired, and is then the
      whole list. */
  lemma ListaBemFormada(vazio: bool, m: Metricas, remoto: Option<real>, presencial: Option<real>,
                        grupos: seq<Grupo<string>>)
    ensures Sobre(vazio, m, remoto, presencial, grupos) == [SemDados] <==> vazio
    ensures |Sobre(vazio, m, remoto, presencial, grupos)| >= 1
    ensures Crescente(Sobre(vazio, m, remoto, presencial, grupos))
    ensures AnaliseOsGraficos in Sobre(vazio, m, remoto, presencial, grupos) <==>
              !vazio && RegraVariacao(m).None? && RegraVariabilidade(m).None? && RegraAssimetria(m).None?
              && RegraModos(remoto, presencial).None? && RegraGrupos(grupos).None?
    ensures AnaliseOsGraficos in Sobre(vazio, m, remoto, presencial, grupos) ==>
              Sobre(vazio, m, remoto, presencial, grupos) == [AnaliseOsGraficos]
  {
    MetricasNumeradas(m);
    ModosNumerados(remoto, presencial);
    GruposNumerados(grupos);
    ResultadoNumerado(vazio, RegraVariacao(m), RegraVariabilidade(m), RegraAssimetria(m), RegraModos(remoto, presencial),
                      RegraGrupos(grupos));
  }

  /** `gerar_insights` on a table: the single no-data message exactly for an empty
      table, never an empty list, the rules in order, and the fallback exactly when
      the table is non-empty and none of the five rules fires on it, in which case it
      is the only message. */
  lemma InsightsDaTabela(df: seq<Record>, m: Metricas)
    ensures Insights(df, m) == [SemDados] <==> df == []
    ensures |Insights(df, m)| >= 1
    ensures Crescente(Insights(df, m))
    ensures AnaliseOsGraficos in Insights(df, m) <==>
              df != [] && RegraVariacao(m).None? && RegraVariabilidade(m).None? && RegraAssimetria(m).None?
              && RegraTrabalho(df).None? && RegraSenioridade(df).None?
    ensures AnaliseOsGraficos in Insights(df, m) ==> Insights(df, m) == [AnaliseOsGraficos]
  {
    InsightsPorPartes(df, m);
    ListaBemFormada(df == [], m, MediaDoModo(df, "Remoto"), MediaDoModo(df, "Presencial"), PorSenioridade(df));
  }

  /** On a non-empty table, a message is in the list exactly when a rule gave it or it
      is the fallback and no rule gave anything. */
  lemma EmSobre(m: Metricas, remoto: Option<real>, presencial: Option<real>, grupos: seq<Grupo<string>>, i: Insight)
    ensures i in Sobre(false, m, remoto, presencial, grupos) <==>
              RegraVariacao(m) == Some(i) || RegraVariabilidade(m) == Some(i) || RegraAssimetria(m) == Some(i)
              || RegraModos(remoto, presencial) == Some(i) || RegraGrupos(grupos) == Some(i)
              || (i == AnaliseOsGraficos && RegraVariacao(m).None? && RegraVariabilidade(m).None?
                  && RegraAssimetria(m).None? && RegraModos(remoto, presencial).None? && RegraGrupos(grupos).None?)
  {
    ResultadoMembro(RegraVariacao(m), RegraVariabilidade(m), RegraAssimetria(m), RegraModos(remoto, presencial),
                    RegraGrupos(grupos), i);
  }

  /** A message of rule `n` is in the list exactly when rule `n` gave it, the others
      having other numbers. */
  lemma EmSobreNumerada(m: Metricas, remoto: Option<real>, presencial: Option<real>, grupos: seq<Grupo<string>>, i: Insight)
    requires 1 <= Regra(i) <= 5
    ensures i in Sobre(false, m, remoto, presencial, grupos) <==>
              (Regra(i) == 1 && RegraVariacao(m) == Some(i)) || (Regra(i) == 2 && RegraVariabilidade(m) == Some(i))
              || (Regra(i) == 3 && RegraAssimetria(m) == Some(i)) || (Regra(i) == 4 && RegraModos(remoto, presencial) == Some(i))
              || (Regra(i) == 5 && RegraGrupos(grupos) == Some(i))
  {
    MetricasNumeradas(m);
    ModosNumerados(remoto, presencial);
    GruposNumerados(grupos);
    EmSobre(m, remoto, presencial, grupos, i);
  }

  /** Rule 1: growth of `v` percent is reported exactly when the change is the
      positive `v`. */
  lemma CrescimentoSePositiva(m: Metricas, remoto: Option<real>, presencial: Option<real>, grupos: seq<Grupo<string>>, v: real)
    ensures Crescimento(v) in Sobre(false, m, remoto, presencial, grupos) <==> v == m.variacaoAnoAnterior && v > 0.0
  {
    EmSobreNumerada(m, remoto, presencial, grupos, Crescimento(v));
  }

  /** Rule 1: a reduction by `p` percent is reported exactly when the change is the
      negative `-p`. */
  lemma ReducaoSeNegativa(m: Metricas, remoto: Option<real>, presencial: Option<real>, grupos: seq<Grupo<string>>, p: real)
    ensures Reducao(p) in Sobre(false, m, remoto, presencial, grupos) <==>
              m.variacaoAnoAnterior < 0.0 && p == -m.variacaoAnoAnterior
  {
    EmSobreNumerada(m, remoto, presencial, grupos, Reducao(p));
  }

  /** Rule 2: high variability is reported, with the variance and the mean, exactly
      when the mean is positive and the variance above a quarter of its square. */
  lemma VariabilidadeSeDispersa(m: Metricas, remoto: Option<real>, presencial: Option<real>, grupos: seq<Grupo<string>>,
                                v: real, media: real)
    ensures AltaVariabilidade(v, media) in Sobre(false, m, remoto, presencial, grupos) <==>
              media == m.salarioMedio && media > 0.0 && m.variancia == Some(v) && v > media * media / 4.0
  {
    EmSobreNumerada(m, remoto, presencial, grupos, AltaVariabilidade(v, media));
  }

  /** Rule 3: the skew message appears exactly when the mean exceeds the median by
      more than a tenth of the mean. */
  lemma AssimetriaSeMediaAlta(m: Metricas, remoto: Option<real>, presencial: Option<real>, grupos: seq<Grupo<string>>)
    ensures DistribuicaoAssimetrica in Sobre(false, m, remoto, presencial, grupos) <==>
              m.salarioMedio > m.salarioMediano && m.salarioMedio - m.salarioMediano > m.salarioMedio * 0.1
  {
    EmSobreNumerada(m, remoto, presencial, grupos, DistribuicaoAssimetrica);
  }

  /** Rule 4: the remote message, with `d`, exactly when both means are positive,
      remote is the larger and `d`, the gap in percent of the on-site mean, is above 5. */
  lemma RemotoGanhaMais(m: Metricas, remoto: Option<real>, presencial: Option<real>, grupos: seq<Grupo<string>>, d: real)
    ensures TrabalhoRemoto(d) in Sobre(false, m, remoto, presencial, grupos) <==>
              remoto.Some? && presencial.Some? && 0.0 < presencial.value < remoto.value
              && d == (remoto.value - presencial.value) / presencial.value * 100.0 && d > 5.0
  {
    EmSobreNumerada(m, remoto, presencial, grupos, TrabalhoRemoto(d));
    ModoRemoto(remoto, presencial, d);
  }

  lemma ModoRemoto(remoto: Option<real>, presencial: Option<real>, d: real)
    ensures RegraModos(remoto, presencial) == Some(TrabalhoRemoto(d)) <==>
              remoto.Some? && presencial.Some? && 0.0 < presencial.value < remoto.value
              && d == (remoto.value - presencial.value) / presencial.value * 100.0 && d > 5.0
  {
    if remoto.Some? && presencial.Some? && presencial.value > 0.0 {
      var r, p := remoto.value, presencial.value;
      if r > p { DivisaoMonotona(0.0, r - p, p); }
      if r <= p { assert (r - p) / p * 100.0 <= 0.0 by { if r < p { DivisaoMonotona(r - p, 0.0, p); } } }
    }
  }

  /** Rule 4: the on-site message, with `d`, exactly when both means are positive,
      on-site is the larger and `d`, the gap in percent of the on-site mean, is
      above 5. */
  lemma PresencialGanhaMais(m: Metricas, remoto: Option<real>, presencial: Option<real>, grupos: seq<Grupo<string>>, d: real)
    ensures TrabalhoPresencial(d) in Sobre(false, m, remoto, presencial, grupos) <==>
              remoto.Some? && presencial.Some? && 0.0 < remoto.value < presencial.value
              && d == (presencial.value - remoto.value) / presencial.value * 100.0 && d > 5.0
  {
    EmSobreNumerada(m, remoto, presencial, grupos, TrabalhoPresencial(d));
    ModoPresencial(remoto, presencial, d);
  }

  lemma ModoPresencial(remoto: Option<real>, presencial: Option<real>, d: real)
    ensures RegraModos(remoto, presencial) == Some(TrabalhoPresencial(d)) <==>
              remoto.Some? && presencial.Some? && 0.0 < remoto.value < presencial.value
              && d == (presencial.value - remoto.value) / presencial.value * 100.0 && d > 5.0
  {
    if remoto.Some? && presencial.Some? && presencial.value > 0.0 {
      var r, p := remoto.value, presencial.value;
      assert (p - r) / p * 100.0 == -((r - p) / p * 100.0);
      if r < p { DivisaoMonotona(r - p, 0.0, p); }
      if r >= p { assert (r - p) / p * 100.0 >= 0.0 by { if r > p { DivisaoMonotona(0.0, r - p, p); } } }
    }
  }

  /** Rule 5: the gap message names the first and the last of the groups, with the gap
      between their means; it appears exactly when there are two groups or more. */
  lemma GapDosExtremos(m: Metricas, remoto: Option<real>, presencial: Option<real>, grupos: seq<Grupo<string>>,
                       maior: string, menor: string, g: Option<real>)
    ensures GapSenioridade(maior, menor, g) in Sobre(false, m, remoto, presencial, grupos) <==>
              |grupos| > 1 && maior == grupos[0].chave && menor == grupos[|grupos| - 1].chave
              && g == Gap(grupos[0].media, grupos[|grupos| - 1].media)
  {
    EmSobreNumerada(m, remoto, presencial, grupos, GapSenioridade(maior, menor, g));
  }

  /** Groups with distinct keys, reordered by descending mean: the first and the last
      have different keys, and every group's mean lies between theirs. */
  lemma ExtremosDosGrupos(gs: seq<Grupo<string>>, ordenados: seq<Grupo<string>>)
    requires NoDup(Map(ChaveDe, gs))
    requires multiset(ordenados) == multiset(gs)
    requires forall i, j :: 0 <= i < j < |ordenados| ==> ordenados[i].media >= ordenados[j].media
    requires |ordenados| > 1
    ensures ordenados[0] in gs && ordenados[|ordenados| - 1] in gs
    ensures ordenados[0].chave != ordenados[|ordenados| - 1].chave
    ensures forall g :: g in gs ==> ordenados[|ordenados| - 1].media <= g.media <= ordenados[0].media
  {
    var ultimo := |ordenados| - 1;
    assert ordenados[0] in multiset(gs) && ordenados[ultimo] in multiset(gs);
    GruposDistintos(gs);
    NoDupPermutation(gs, ordenados);
    assert ordenados[0] != ordenados[ultimo];
    ChavesDistintas(gs, ordenados[0], ordenados[ultimo]);
    MediasEntreExtremos(gs, ordenados);
  }

  /** In a descending order of a list's groups, every group's mean lies between the
      last one's and the first one's. */
  lemma MediasEntreExtremos(gs: seq<Grupo<string>>, ordenados: seq<Grupo<string>>)
    requires multiset(ordenados) == multiset(gs)
    requires forall i, j :: 0 <= i < j < |ordenados| ==> ordenados[i].media >= ordenados[j].media
    requires |ordenados| > 0
    ensures forall g :: g in gs ==> ordenados[|ordenados| - 1].media <= g.media <= ordenados[0].media
  {
    forall g | g in gs ensures ordenados[|ordenados| - 1].media <= g.media <= ordenados[0].media {
      assert g in multiset(ordenados);
      var k :| 0 <= k < |ordenados| && ordenados[k] == g;
    }
  }

  /** `ExtremosDosGrupos` for correct groups of a column. */
  lemma ExtremosCorretos(df: seq<Record>, gs: seq<Grupo<string>>, p: seq<Grupo<string>>)
    requires NoDup(Map(ChaveDe, gs))
    requires forall k :: k in Map(ChaveDe, gs) <==> k in Map(SenioridadeDe, df)
    requires forall i :: 0 <= i < |gs| ==> MediaCorreta(df, SenioridadeDe, gs[i])
    requires |gs| == |Distinct(Map(SenioridadeDe, df))|
    requires multiset(p) == multiset(gs)
    requires forall i, j :: 0 <= i < j < |p| ==> p[i].media >= p[j].media
    ensures |p| > 1 <==> |Distinct(Map(SenioridadeDe, df))| > 1
    ensures |p| > 1 ==>
              p[0].chave != p[|p| - 1].chave
              && p[0].chave in Map(SenioridadeDe, df) && p[|p| - 1].chave in Map(SenioridadeDe, df)
              && MediaCorreta(df, SenioridadeDe, p[0]) && MediaCorreta(df, SenioridadeDe, p[|p| - 1])
              && forall g :: g in gs ==> p[|p| - 1].media <= g.media <= p[0].media
  {
    assert |p| == |multiset(p)| == |multiset(gs)| == |gs|;
    if |p| > 1 {
      ExtremosDosGrupos(gs, p);
      var ultimo := |p| - 1;
      var i0 :| 0 <= i0 < |gs| && gs[i0] == p[0];
      var i1 :| 0 <= i1 < |gs| && gs[i1] == p[ultimo];
      assert Map(ChaveDe, gs)[i0] == p[0].chave && Map(ChaveDe, gs)[i1] == p[ultimo].chave;
    }
  }

  /** The seniority groups of a table in descending order: there are two or more
      exactly when the column holds two levels or more; then the first and the last
      are correct groups of different levels present in the table, and every level's
      mean lies between theirs. */
  lemma SenioridadesExtremas(df: seq<Record>)
    ensures |PorSenioridade(df)| > 1 <==> |Distinct(Map(SenioridadeDe, df))| > 1
    ensures var p := PorSenioridade(df);
              |p| > 1 ==>
                p[0].chave != p[|p| - 1].chave
                && p[0].chave in Map(SenioridadeDe, df) && p[|p| - 1].chave in Map(SenioridadeDe, df)
                && MediaCorreta(df, SenioridadeDe, p[0]) && MediaCorreta(df, SenioridadeDe, p[|p| - 1])
                && forall g :: g in MediaPorGrupo(df, SenioridadeDe) ==> p[|p| - 1].media <= g.media <= p[0].media
  {
    PorSenioridadeOrdenada(df);
    ExtremosCorretos(df, MediaPorGrupo(df, SenioridadeDe), PorSenioridade(df));
  }
}
