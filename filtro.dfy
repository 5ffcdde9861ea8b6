/** `filtrar_dataframe` (app.py, lines 185-218): four required membership tests and
    an optional one on the title. */
module Filtro {
  import opened Options
  import opened Dados
  import opened Sequences

  /** The selections of the sidebar. `cargos` is `None` when the argument is omitted. */
  datatype Criteria = Criteria(
    anos: seq<int>,
    senioridades: seq<string>,
    contratos: seq<string>,
    tamanhosEmpresa: seq<string>,
    cargos: Option<seq<string>>)

  /** The first mask: year, seniority, contract and company size all selected. */
  predicate PassaObrigatorios(c: Criteria, r: Record)
  {
    r.ano in c.anos && r.senioridade in c.senioridades && r.contrato in c.contratos
    && r.tamanhoEmpresa in c.tamanhosEmpresa
  }

  /** `if cargos and len(cargos) > 0`: only a present, non-empty list restricts titles. */
  predicate RestringeCargos(c: Criteria)
  {
    c.cargos.Some? && |c.cargos.value| > 0
  }

  /** The second mask, applied only when the title list restricts. */
  predicate PassaCargo(c: Criteria, r: Record)
  {
    RestringeCargos(c) ==> r.cargo in c.cargos.value
  }

  /** What a row must satisfy to be kept. */
  predicate Passa(c: Criteria, r: Record)
  {
    PassaObrigatorios(c, r) && PassaCargo(c, r)
  }

  /** The filtered table: exactly the rows that satisfy every selection, each as often
      as it occurs, in their original order. */
  function FiltrarDataframe(dataframe: seq<Record>, c: Criteria): (r: seq<Record>)
    ensures forall x :: x in r <==> x in dataframe && Passa(c, x)
    ensures forall x :: multiset(r)[x] == if Passa(c, x) then multiset(dataframe)[x] else 0
    ensures IsSubsequence(r, dataframe)
    ensures |r| <= |dataframe|
  {
    var obrigatorios := (x: Record) => PassaObrigatorios(c, x);
    var filtrado := Filter(obrigatorios, dataframe);
    if RestringeCargos(c) then
      var cargo := (x: Record) => x.cargo in c.cargos.value;
      FilterTwice(obrigatorios, cargo, x => Passa(c, x), dataframe);
      Filter(cargo, filtrado)
    else
      filtrado
  }

  /** When every row already satisfies the selections, nothing is removed. */
  lemma FiltroSemEfeito(dataframe: seq<Record>, c: Criteria)
    requires forall i :: 0 <= i < |dataframe| ==> Passa(c, dataframe[i])
    ensures FiltrarDataframe(dataframe, c) == dataframe
  {
    var r := FiltrarDataframe(dataframe, c);
    assert multiset(r) == multiset(dataframe) by {
      forall x ensures multiset(r)[x] == multiset(dataframe)[x] {
        if x in dataframe {
          var i :| 0 <= i < |dataframe| && dataframe[i] == x;
        }
      }
    }
    assert |r| == |multiset(r)|;
    SubsequenceOfSameLength(r, dataframe);
  }

  /** Full domains for the four required lists and no title restriction: the filter
      is the identity. */
  lemma FiltroDominiosCompletos(dataframe: seq<Record>, c: Criteria)
    requires forall i :: 0 <= i < |dataframe| ==> dataframe[i].ano in c.anos
    requires forall i :: 0 <= i < |dataframe| ==> dataframe[i].senioridade in c.senioridades
    requires forall i :: 0 <= i < |dataframe| ==> dataframe[i].contrato in c.contratos
    requires forall i :: 0 <= i < |dataframe| ==> dataframe[i].tamanhoEmpresa in c.tamanhosEmpresa
    requires c.cargos == None || c.cargos == Some([])
    ensures FiltrarDataframe(dataframe, c) == dataframe
  {
    FiltroSemEfeito(dataframe, c);
  }

  /** The selections the sidebar starts with: every value present in each of the four
      columns, and an empty title list. */
  function CriteriosPadrao(dataframe: seq<Record>): (c: Criteria)
    ensures !RestringeCargos(c)
    ensures forall x :: x in c.anos <==> exists i :: 0 <= i < |dataframe| && dataframe[i].ano == x
    ensures forall x :: x in c.senioridades <==> exists i :: 0 <= i < |dataframe| && dataframe[i].senioridade == x
    ensures forall x :: x in c.contratos <==> exists i :: 0 <= i < |dataframe| && dataframe[i].contrato == x
    ensures forall x :: x in c.tamanhosEmpresa <==> exists i :: 0 <= i < |dataframe| && dataframe[i].tamanhoEmpresa == x
  {
    Criteria(
      Distinct(Map(AnoDe, dataframe)),
      Distinct(Map(SenioridadeDe, dataframe)),
      Distinct(Map(ContratoDe, dataframe)),
      Distinct(Map(TamanhoEmpresaDe, dataframe)),
      Some([]))
  }

  /** With the sidebar's initial selections the whole table is shown. */
  lemma FiltroPadraoMostraTudo(dataframe: seq<Record>)
    ensures FiltrarDataframe(dataframe, CriteriosPadrao(dataframe)) == dataframe
  {
    var c := CriteriosPadrao(dataframe);
    forall i | 0 <= i < |dataframe| ensures Passa(c, dataframe[i]) {
      assert Map(AnoDe, dataframe)[i] == dataframe[i].ano;
      assert Map(SenioridadeDe, dataframe)[i] == dataframe[i].senioridade;
      assert Map(ContratoDe, dataframe)[i] == dataframe[i].contrato;
      assert Map(TamanhoEmpresaDe, dataframe)[i] == dataframe[i].tamanhoEmpresa;
    }
    FiltroSemEfeito(dataframe, c);
  }

  /** An empty selection for any of the four required lists lets nothing through. */
  lemma FiltroListaVazia(dataframe: seq<Record>, c: Criteria)
    requires c.anos == [] || c.senioridades == [] || c.contratos == [] || c.tamanhosEmpresa == []
    ensures FiltrarDataframe(dataframe, c) == []
  {
    var r := FiltrarDataframe(dataframe, c);
    assert multiset(r) == multiset{};
  }

  /** An omitted title list and an empty one filter alike. */
  lemma CargosAusentesOuVazios(dataframe: seq<Record>, c: Criteria)
    ensures FiltrarDataframe(dataframe, c.(cargos := None))
            == FiltrarDataframe(dataframe, c.(cargos := Some([])))
  {
    var c1, c2 := c.(cargos := None), c.(cargos := Some([]));
    FilterSamePredicate((x: Record) => PassaObrigatorios(c1, x), (x: Record) => PassaObrigatorios(c2, x), dataframe);
  }
}
