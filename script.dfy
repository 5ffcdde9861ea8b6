/** main.py: the stand-alone normalization script. It keeps its own copy of the
    dictionaries, rebinds `df` after each step and, unlike the dashboard, does not
    translate job titles. */
module Script {
  import opened Options
  import opened Dados
  import opened Sequences
  import opened Normalizador

  const colunasTraduzidas: map<string, string> := map[
    "work_year" := "ano",
    "experience_level" := "senioridade",
    "employment_type" := "contrato",
    "job_title" := "cargo",
    "salary" := "salario",
    "salary_currency" := "usd",
    "salary_in_usd" := "salario_usd",
    "employee_residence" := "residencia",
    "remote_ratio" := "remota",
    "company_location" := "empresa",
    "company_size" := "tamanho_empresa"]

  const traducaoSenioridade: map<string, string> := map[
    "EN" := "junior", "MI" := "Pleno", "SE" := "Senior", "EX" := "executivo"]

  const traducaoContrato: map<string, string> := map[
    "FT" := "Tempo Integral", "PT" := "Meio Período", "CT" := "Contrato", "FL" := "Freelancer"]

  const traducaoTamanhoEmpresa: map<string, string> := map[
    "S" := "Pequena", "M" := "Média", "L" := "Grande"]

  const traducaoRemota: map<int, string> := map[
    0 := "Presencial", 50 := "Híbrido", 100 := "Remoto"]

  const DICIONARIOS_SCRIPT: Dictionaries := Dictionaries(
    colunasTraduzidas, traducaoSenioridade, traducaoContrato,
    traducaoTamanhoEmpresa, traducaoRemota)

  /** The script's dictionaries are the dashboard's. */
  lemma DicionariosIguais()
    ensures DICIONARIOS_SCRIPT == DICIONARIOS
  {
  }

  /** The script, from the loaded frame to `df_limpo`. */
  method LimparDados(raw: Frame) returns (dfLimpo: Table)
    ensures dfLimpo.columns == RenameColumns(colunasTraduzidas, raw.columns)
    ensures dfLimpo.records == Limpar(CodigosTraduzidos(DICIONARIOS_SCRIPT, raw.rows))
  {
    var d := DICIONARIOS_SCRIPT;
    var df := raw;
    df := Frame(RenameColumns(d.colunas, df.columns), df.rows);
    df := df.(rows := SubstituirColuna(d, df.rows, Senioridade));
    df := df.(rows := SubstituirColuna(d, df.rows, Contrato));
    df := df.(rows := SubstituirColuna(d, df.rows, TamanhoEmpresa));
    df := df.(rows := SubstituirColuna(d, df.rows, Remota));
    SubstituirQuatroColunas(d, raw.rows);
    var limpo := DropNa(df.rows);
    dfLimpo := Table(df.columns, CastAno(limpo));
  }

  /** The four column overwrites of the script, one after the other, are the
      translation of the coded columns of every row. */
  lemma SubstituirQuatroColunas(d: Dictionaries, rows: seq<Row>)
    ensures SubstituirColuna(d, SubstituirColuna(d, SubstituirColuna(d,
              SubstituirColuna(d, rows, Senioridade), Contrato), TamanhoEmpresa), Remota)
            == CodigosTraduzidos(d, rows)
  {
  }

  /** The script's value translation of one row: each of the four coded columns takes
      its dictionary entry when the code is a key and is otherwise left as it was;
      nulls stay null and every other column, the title included, is unchanged. */
  lemma CodigosDoScript(r: Row)
    ensures var t := TraduzirCodigos(DICIONARIOS_SCRIPT, r);
            && t.ano == r.ano && t.cargo == r.cargo && t.salario == r.salario && t.usd == r.usd
            && t.salarioUsd == r.salarioUsd && t.residencia == r.residencia && t.empresa == r.empresa
            && (r.senioridade.None? ==> t.senioridade.None?)
            && (r.senioridade.Some? && r.senioridade.value in traducaoSenioridade ==>
                  t.senioridade == Some(traducaoSenioridade[r.senioridade.value]))
            && (r.senioridade.Some? && r.senioridade.value !in traducaoSenioridade ==> t.senioridade == r.senioridade)
            && (r.contrato.None? ==> t.contrato.None?)
            && (r.contrato.Some? && r.contrato.value in traducaoContrato ==>
                  t.contrato == Some(traducaoContrato[r.contrato.value]))
            && (r.contrato.Some? && r.contrato.value !in traducaoContrato ==> t.contrato == r.contrato)
            && (r.tamanhoEmpresa.None? ==> t.tamanhoEmpresa.None?)
            && (r.tamanhoEmpresa.Some? && r.tamanhoEmpresa.value in traducaoTamanhoEmpresa ==>
                  t.tamanhoEmpresa == Some(traducaoTamanhoEmpresa[r.tamanhoEmpresa.value]))
            && (r.tamanhoEmpresa.Some? && r.tamanhoEmpresa.value !in traducaoTamanhoEmpresa ==>
                  t.tamanhoEmpresa == r.tamanhoEmpresa)
            && (forall c :: r.remota == Some(Ratio(c)) && c in traducaoRemota ==>
                  t.remota == Some(Mode(traducaoRemota[c])))
            && (forall c :: r.remota == Some(Ratio(c)) && c !in traducaoRemota ==> t.remota == r.remota)
            && (r.remota.None? ==> t.remota.None?)
  {
  }

  /** The title translation on a normalized record. */
  function TraduzirCargoRegistro(r: Record): Record
  {
    r.(cargo := TraduzirCargosComuns(r.cargo))
  }

  function CargosTraduzidos(records: seq<Record>): (r: seq<Record>)
    ensures |r| == |records|
  {
    seq(|records|, i requires 0 <= i < |records| => TraduzirCargoRegistro(records[i]))
  }

  /** For any dictionaries, normalizing with the title translation is normalizing
      without it and translating the titles of the records afterwards: the title
      map neither adds nor removes a null, so it commutes with the null drop, and it
      does not touch the year. */
  lemma TitlesCommuteWithCleaning(d: Dictionaries, rows: seq<Row>)
    ensures Limpar(LinhasTraduzidas(d, rows)) == CargosTraduzidos(Limpar(CodigosTraduzidos(d, rows)))
  {
    var b := CodigosTraduzidos(d, rows);
    assert LinhasTraduzidas(d, rows) == SubstituirColuna(d, b, Cargo);
    TitlesCommuteWithDropNa(d, b);
    TitlesCommuteWithCast(d, DropNa(b));
  }

  /** Translating the titles before or after the null drop gives the same rows. */
  lemma TitlesCommuteWithDropNa(d: Dictionaries, b: seq<Row>)
    ensures DropNa(SubstituirColuna(d, b, Cargo)) == SubstituirColuna(d, DropNa(b), Cargo)
  {
    var f := (r: Row) => TraduzirCelula(d, Cargo, r);
    ColunaComoMap(d, f, b);
    ColunaComoMap(d, f, DropNa(b));
    CompletasDaColuna(d, f, b);
  }

  lemma CompletasDaColuna(d: Dictionaries, f: Row -> Row, b: seq<Row>)
    requires forall r :: f(r) == TraduzirCelula(d, Cargo, r)
    ensures Filter(Complete, Map(f, b)) == Map(f, Filter(Complete, b))
  {
    forall x ensures Complete(f(x)) == Complete(x) {
      assert f(x) == TraduzirCelula(d, Cargo, x);
    }
    FilterMap(Complete, f, b);
  }

  lemma ColunaComoMap(d: Dictionaries, f: Row -> Row, b: seq<Row>)
    requires forall r :: f(r) == TraduzirCelula(d, Cargo, r)
    ensures SubstituirColuna(d, b, Cargo) == Map(f, b)
  {
  }

  /** Translating the titles before or after the integer year gives the same records. */
  lemma TitlesCommuteWithCast(d: Dictionaries, c: seq<Row>)
    requires forall i :: 0 <= i < |c| ==> Complete(c[i])
    ensures forall i :: 0 <= i < |c| ==> Complete(SubstituirColuna(d, c, Cargo)[i])
    ensures CastAno(SubstituirColuna(d, c, Cargo)) == CargosTraduzidos(CastAno(c))
  {
  }

  /** The dashboard's normalized records are the script's `df_limpo` with the titles
      translated. */
  lemma DashboardIsScriptPlusTitles(rows: seq<Row>)
    ensures Limpar(LinhasTraduzidas(DICIONARIOS, rows))
            == CargosTraduzidos(Limpar(CodigosTraduzidos(DICIONARIOS_SCRIPT, rows)))
  {
    DicionariosIguais();
    TitlesCommuteWithCleaning(DICIONARIOS, rows);
  }
}
