/** The normalizer of app.py (lines 90-182): column rename, value translation,
    title translation, null elimination and the integer year. */
module Normalizador {
  import opened Options
  import opened Dados
  import opened Sequences

  /** pandas `replace` with a dictionary, on one value: a key is replaced by its
      entry, anything else is left as it is. It is also what `rename(columns=...)`
      does to one column name and `dict.get(v, v)` to one title. */
  function Replace(m: map<string, string>, v: string): string
  {
    if v in m then m[v] else v
  }

  /** `replace` on a nullable cell: a null stays null. */
  function ReplaceCell(m: map<string, string>, v: Option<string>): Option<string>
  {
    match v
    case None => None
    case Some(x) => Some(Replace(m, x))
  }

  /** `replace` with the remote-ratio dictionary: a mapped code becomes its label,
      an unmapped code stays numeric, and a label is not a key. */
  function ReplaceRemote(m: map<int, string>, v: Option<Remote>): Option<Remote>
  {
    match v
    case Some(Ratio(c)) => if c in m then Some(Mode(m[c])) else v
    case _ => v
  }

  // ---------------------------------------------------------------- rename (app.py:90-100)

  /** `rename(columns=...)` on the header. */
  function RenameColumns(m: map<string, string>, columns: seq<string>): (r: seq<string>)
    ensures |r| == |columns|
    ensures forall i :: 0 <= i < |columns| && columns[i] !in m ==> r[i] == columns[i]
    ensures forall i :: 0 <= i < |columns| && columns[i] in m ==> r[i] == m[columns[i]]
  {
    seq(|columns|, i requires 0 <= i < |columns| => Replace(m, columns[i]))
  }

  /** `traduzir_colunas`: only the header changes; the cells stay where they are. */
  function TraduzirColunas(df: Frame): (r: Frame)
    ensures r.rows == df.rows
  {
    df.(columns := RenameColumns(COLUNAS_TRADUZIDAS, df.columns))
  }

  /** A column name changes exactly when it is one of the eleven source names, and
      the eleven are sent to eleven different names. */
  lemma RenameChangesExactlyTheEleven(c: string)
    ensures Replace(COLUNAS_TRADUZIDAS, c) != c <==> c in COLUNAS_TRADUZIDAS
    ensures c in COLUNAS_TRADUZIDAS <==> c in {"work_year", "experience_level", "employment_type",
              "job_title", "salary", "salary_currency", "salary_in_usd", "employee_residence",
              "remote_ratio", "company_location", "company_size"}
    ensures forall a, b :: a in COLUNAS_TRADUZIDAS && b in COLUNAS_TRADUZIDAS && a != b ==>
              COLUNAS_TRADUZIDAS[a] != COLUNAS_TRADUZIDAS[b]
  {
  }

  /** The header of the source file becomes the canonical header, and renaming an
      already renamed header changes nothing. */
  lemma RenameSourceHeader(columns: seq<string>)
    ensures RenameColumns(COLUNAS_TRADUZIDAS, [
              "work_year", "experience_level", "employment_type", "job_title", "salary",
              "salary_currency", "salary_in_usd", "employee_residence", "remote_ratio",
              "company_location", "company_size"])
            == ["ano", "senioridade", "contrato", "cargo", "salario", "usd", "salario_usd",
                "residencia", "remota", "empresa", "tamanho_empresa"]
    ensures RenameColumns(COLUNAS_TRADUZIDAS, RenameColumns(COLUNAS_TRADUZIDAS, columns))
            == RenameColumns(COLUNAS_TRADUZIDAS, columns)
  {
    SourceHeaderRenamed();
    var once := RenameColumns(COLUNAS_TRADUZIDAS, columns);
    ColumnNamesNotKeys();
    forall i | 0 <= i < |columns|
      ensures Replace(COLUNAS_TRADUZIDAS, once[i]) == once[i]
    {
      assert once[i] !in COLUNAS_TRADUZIDAS;
    }
  }

  lemma SourceHeaderRenamed()
    ensures RenameColumns(COLUNAS_TRADUZIDAS, [
              "work_year", "experience_level", "employment_type", "job_title", "salary",
              "salary_currency", "salary_in_usd", "employee_residence", "remote_ratio",
              "company_location", "company_size"])
            == ["ano", "senioridade", "contrato", "cargo", "salario", "usd", "salario_usd",
                "residencia", "remota", "empresa", "tamanho_empresa"]
  {
  }

  /** No renamed column name is itself a source name. */
  lemma ColumnNamesNotKeys()
    ensures forall k :: k in COLUNAS_TRADUZIDAS ==> COLUNAS_TRADUZIDAS[k] !in COLUNAS_TRADUZIDAS
  {
  }

  // ---------------------------------------------------------- titles (app.py:103-140)

  const TRADUCAO_CARGOS: map<string, string> := map[
    "Data Scientist" := "Cientista de Dados",
    "Data Engineer" := "Engenheiro de Dados",
    "Data Analyst" := "Analista de Dados",
    "Machine Learning Engineer" := "Engenheiro de Machine Learning",
    "Research Scientist" := "Cientista de Pesquisa",
    "Data Science Manager" := "Gerente de Ciência de Dados",
    "Data Architect" := "Arquiteto de Dados",
    "Analytics Engineer" := "Engenheiro de Analytics",
    "Business Intelligence Developer" := "Desenvolvedor de Business Intelligence",
    "Data Science Consultant" := "Consultor de Ciência de Dados",
    "Head of Data" := "Diretor de Dados",
    "Principal Data Scientist" := "Cientista de Dados Principal",
    "ML Engineer" := "Engenheiro de ML",
    "Applied Scientist" := "Cientista Aplicado",
    "Research Team Lead" := "Líder de Equipe de Pesquisa",
    "Analytics Engineering Manager" := "Gerente de Engenharia de Analytics",
    "Data Science Tech Lead" := "Líder Técnico de Ciência de Dados",
    "Applied AI ML Lead" := "Líder de IA e ML Aplicados",
    "Head of Applied AI" := "Diretor de IA Aplicada",
    "Head of Machine Learning" := "Diretor de Machine Learning",
    "Machine Learning Performance Engineer" := "Engenheiro de Performance de ML",
    "Director of Product Management" := "Diretor de Gestão de Produtos",
    "Engineering Manager" := "Gerente de Engenharia",
    "AWS Data Architect" := "Arquiteto de Dados AWS"]

  /** `traduzir_cargos_comuns`. */
  function TraduzirCargosComuns(cargo: string): string
  {
    Replace(TRADUCAO_CARGOS, cargo)
  }

  /** A title outside the dictionary is returned as it is; a known one becomes its
      display name, and no display name is itself translated again. */
  lemma TraduzirCargosPassThrough(cargo: string)
    ensures cargo !in TRADUCAO_CARGOS ==> TraduzirCargosComuns(cargo) == cargo
    ensures cargo in TRADUCAO_CARGOS ==> TraduzirCargosComuns(cargo) == TRADUCAO_CARGOS[cargo]
    ensures TraduzirCargosComuns(TraduzirCargosComuns(cargo)) == TraduzirCargosComuns(cargo)
  {
    TitleValuesAreNotKeys();
  }

  /** The display names of the title dictionary. */
  const NOMES_CARGOS: set<string> := {
    "Cientista de Dados", "Engenheiro de Dados", "Analista de Dados",
    "Engenheiro de Machine Learning", "Cientista de Pesquisa", "Gerente de Ciência de Dados",
    "Arquiteto de Dados", "Engenheiro de Analytics", "Desenvolvedor de Business Intelligence",
    "Consultor de Ciência de Dados", "Diretor de Dados", "Cientista de Dados Principal",
    "Engenheiro de ML", "Cientista Aplicado", "Líder de Equipe de Pesquisa",
    "Gerente de Engenharia de Analytics", "Líder Técnico de Ciência de Dados",
    "Líder de IA e ML Aplicados", "Diretor de IA Aplicada", "Diretor de Machine Learning",
    "Engenheiro de Performance de ML", "Diretor de Gestão de Produtos", "Gerente de Engenharia",
    "Arquiteto de Dados AWS"}

  /** Every entry of the title dictionary is one of its display names. */
  lemma TitleEntryIsDisplayName(k: string)
    ensures k in TRADUCAO_CARGOS ==> TRADUCAO_CARGOS[k] in NOMES_CARGOS
  {
  }

  lemma DisplayNamesNotKeys1()
    ensures "Cientista de Dados" !in TRADUCAO_CARGOS
            && "Engenheiro de Dados" !in TRADUCAO_CARGOS
            && "Analista de Dados" !in TRADUCAO_CARGOS
            && "Engenheiro de Machine Learning" !in TRADUCAO_CARGOS
            && "Cientista de Pesquisa" !in TRADUCAO_CARGOS
            && "Gerente de Ciência de Dados" !in TRADUCAO_CARGOS
  {
  }

  lemma DisplayNamesNotKeys2()
    ensures "Arquiteto de Dados" !in TRADUCAO_CARGOS
            && "Engenheiro de Analytics" !in TRADUCAO_CARGOS
            && "Desenvolvedor de Business Intelligence" !in TRADUCAO_CARGOS
            && "Consultor de Ciência de Dados" !in TRADUCAO_CARGOS
            && "Diretor de Dados" !in TRADUCAO_CARGOS
            && "Cientista de Dados Principal" !in TRADUCAO_CARGOS
  {
  }

  lemma DisplayNamesNotKeys3()
    ensures "Engenheiro de ML" !in TRADUCAO_CARGOS
            && "Cientista Aplicado" !in TRADUCAO_CARGOS
            && "Líder de Equipe de Pesquisa" !in TRADUCAO_CARGOS
            && "Gerente de Engenharia de Analytics" !in TRADUCAO_CARGOS
            && "Líder Técnico de Ciência de Dados" !in TRADUCAO_CARGOS
            && "Líder de IA e ML Aplicados" !in TRADUCAO_CARGOS
  {
  }

  lemma DisplayNamesNotKeys4()
    ensures "Diretor de IA Aplicada" !in TRADUCAO_CARGOS
            && "Diretor de Machine Learning" !in TRADUCAO_CARGOS
            && "Engenheiro de Performance de ML" !in TRADUCAO_CARGOS
            && "Diretor de Gestão de Produtos" !in TRADUCAO_CARGOS
            && "Gerente de Engenharia" !in TRADUCAO_CARGOS
            && "Arquiteto de Dados AWS" !in TRADUCAO_CARGOS
  {
  }

  /** No display title is itself an English key. */
  lemma TitleValuesAreNotKeys()
    ensures forall k :: k in TRADUCAO_CARGOS ==> TRADUCAO_CARGOS[k] !in TRADUCAO_CARGOS
  {
    DisplayNamesNotKeys1(); DisplayNamesNotKeys2(); DisplayNamesNotKeys3(); DisplayNamesNotKeys4();
    forall k | k in TRADUCAO_CARGOS ensures TRADUCAO_CARGOS[k] !in TRADUCAO_CARGOS {
      TitleEntryIsDisplayName(k);
    }
  }

  /** After translation, a title is 'Cientista de Dados' exactly when it was
      'Data Scientist' or already 'Cientista de Dados'. */
  lemma DataScientistTitle(cargo: string)
    ensures TraduzirCargosComuns(cargo) == CARGO_DATA_SCIENTIST <==>
            cargo == "Data Scientist" || cargo == CARGO_DATA_SCIENTIST
  {
    DisplayNamesNotKeys1();
  }

  // -------------------------------------------------- value translation (app.py:143-161)

  /** The columns whose values `traduzir_valores` overwrites, in the order it does. */
  datatype Coluna = Senioridade | Contrato | TamanhoEmpresa | Remota | Cargo

  /** The translation of one cell of column `c` of row `r`; the rest of the row is kept. */
  function TraduzirCelula(d: Dictionaries, c: Coluna, r: Row): Row
  {
    match c
    case Senioridade => r.(senioridade := ReplaceCell(d.senioridade, r.senioridade))
    case Contrato => r.(contrato := ReplaceCell(d.contrato, r.contrato))
    case TamanhoEmpresa => r.(tamanhoEmpresa := ReplaceCell(d.tamanhoEmpresa, r.tamanhoEmpresa))
    case Remota => r.(remota := ReplaceRemote(d.remota, r.remota))
    case Cargo =>
      r.(cargo := match r.cargo
                  case None => None
                  case Some(t) => Some(TraduzirCargosComuns(t)))
  }

  /** `df[c] = df[c].replace(...)`: column `c` recomputed for every row. */
  function SubstituirColuna(d: Dictionaries, df: seq<Row>, c: Coluna): (r: seq<Row>)
    ensures |r| == |df|
  {
    seq(|df|, i requires 0 <= i < |df| => TraduzirCelula(d, c, df[i]))
  }

  /** The four coded columns translated (the value translation of main.py). */
  function TraduzirCodigos(d: Dictionaries, r: Row): Row
  {
    TraduzirCelula(d, Remota, TraduzirCelula(d, TamanhoEmpresa,
      TraduzirCelula(d, Contrato, TraduzirCelula(d, Senioridade, r))))
  }

  /** The four coded columns and the title translated (the value translation of app.py). */
  function TraduzirLinha(d: Dictionaries, r: Row): Row
  {
    TraduzirCelula(d, Cargo, TraduzirCodigos(d, r))
  }

  function CodigosTraduzidos(d: Dictionaries, rows: seq<Row>): (r: seq<Row>)
    ensures |r| == |rows|
  {
    seq(|rows|, i requires 0 <= i < |rows| => TraduzirCodigos(d, rows[i]))
  }

  function LinhasTraduzidas(d: Dictionaries, rows: seq<Row>): (r: seq<Row>)
    ensures |r| == |rows|
  {
    seq(|rows|, i requires 0 <= i < |rows| => TraduzirLinha(d, rows[i]))
  }

  /** `traduzir_valores`: a copy of the frame whose five columns are overwritten one
      after the other. */
  method TraduzirValores(dataframe: seq<Row>) returns (dfTraduzido: seq<Row>)
    ensures dfTraduzido == LinhasTraduzidas(DICIONARIOS, dataframe)
  {
    dfTraduzido := dataframe;
    dfTraduzido := SubstituirColuna(DICIONARIOS, dfTraduzido, Senioridade);
    dfTraduzido := SubstituirColuna(DICIONARIOS, dfTraduzido, Contrato);
    dfTraduzido := SubstituirColuna(DICIONARIOS, dfTraduzido, TamanhoEmpresa);
    dfTraduzido := SubstituirColuna(DICIONARIOS, dfTraduzido, Remota);
    dfTraduzido := SubstituirColuna(DICIONARIOS, dfTraduzido, Cargo);
  }

  /** Translation never adds nor removes a null, so it keeps a row complete or
      incomplete, and it leaves every other column of the row unchanged. */
  lemma TraduzirPreservaNulos(d: Dictionaries, r: Row)
    ensures Complete(TraduzirLinha(d, r)) <==> Complete(r)
    ensures Complete(TraduzirCodigos(d, r)) <==> Complete(r)
    ensures var t := TraduzirLinha(d, r);
            t.ano == r.ano && t.salario == r.salario && t.usd == r.usd
            && t.salarioUsd == r.salarioUsd && t.residencia == r.residencia && t.empresa == r.empresa
  {
  }

  /** Codes outside the dictionaries pass through: in particular a remote ratio other
      than 0, 50 and 100 stays a number. */
  lemma TraduzirPassThrough(r: Row)
    ensures r.senioridade.Some? && r.senioridade.value !in TRADUCAO_SENIORIDADE ==>
              TraduzirLinha(DICIONARIOS, r).senioridade == r.senioridade
    ensures r.contrato.Some? && r.contrato.value !in TRADUCAO_CONTRATO ==>
              TraduzirLinha(DICIONARIOS, r).contrato == r.contrato
    ensures r.tamanhoEmpresa.Some? && r.tamanhoEmpresa.value !in TRADUCAO_TAMANHO_EMPRESA ==>
              TraduzirLinha(DICIONARIOS, r).tamanhoEmpresa == r.tamanhoEmpresa
    ensures forall c :: r.remota == Some(Ratio(c)) && c != 0 && c != 50 && c != 100 ==>
              TraduzirLinha(DICIONARIOS, r).remota == Some(Ratio(c))
    ensures r.remota == Some(Ratio(100)) ==> TraduzirLinha(DICIONARIOS, r).remota == Some(Mode("Remoto"))
    ensures r.remota == Some(Ratio(0)) ==> TraduzirLinha(DICIONARIOS, r).remota == Some(Mode("Presencial"))
  {
    TraduzirLinhaCampos(DICIONARIOS, r);
    assert TRADUCAO_REMOTA[100] == "Remoto" && TRADUCAO_REMOTA[0] == "Presencial";
    assert forall c :: c in TRADUCAO_REMOTA ==> c == 0 || c == 50 || c == 100;
  }

  /** The value translation of app.py, field by field. */
  lemma TraduzirLinhaCampos(d: Dictionaries, r: Row)
    ensures TraduzirLinha(d, r) == r.(senioridade := ReplaceCell(d.senioridade, r.senioridade),
                                      contrato := ReplaceCell(d.contrato, r.contrato),
                                      tamanhoEmpresa := ReplaceCell(d.tamanhoEmpresa, r.tamanhoEmpresa),
                                      remota := ReplaceRemote(d.remota, r.remota),
                                      cargo := ReplaceCell(TRADUCAO_CARGOS, r.cargo))
  {
  }

  /** No entry of `m` is itself one of its keys, so translating twice is translating once. */
  predicate NoChains(m: map<string, string>)
  {
    forall k :: k in m ==> m[k] !in m
  }

  lemma DictionariesHaveNoChains()
    ensures NoChains(TRADUCAO_SENIORIDADE) && NoChains(TRADUCAO_CONTRATO)
    ensures NoChains(TRADUCAO_TAMANHO_EMPRESA) && NoChains(TRADUCAO_CARGOS)
  {
    SeniorityHasNoChains();
    ContractHasNoChains();
    CompanySizeHasNoChains();
    TitleValuesAreNotKeys();
  }

  lemma SeniorityHasNoChains()
    ensures NoChains(TRADUCAO_SENIORIDADE)
  {
  }

  lemma ContractHasNoChains()
    ensures NoChains(TRADUCAO_CONTRATO)
  {
  }

  lemma CompanySizeHasNoChains()
    ensures NoChains(TRADUCAO_TAMANHO_EMPRESA)
  {
  }

  lemma TraduzirTwice(d: Dictionaries, r: Row)
    requires NoChains(d.senioridade) && NoChains(d.contrato) && NoChains(d.tamanhoEmpresa)
    requires NoChains(TRADUCAO_CARGOS)
    ensures TraduzirLinha(d, TraduzirLinha(d, r)) == TraduzirLinha(d, r)
  {
    TraduzirLinhaCampos(d, r);
    TraduzirLinhaCampos(d, TraduzirLinha(d, r));
  }

  /** Translating an already translated row changes nothing: no display label is
      itself a code of the same dictionary. */
  lemma TraduzirIdempotente(r: Row)
    ensures TraduzirLinha(DICIONARIOS, TraduzirLinha(DICIONARIOS, r)) == TraduzirLinha(DICIONARIOS, r)
  {
    DictionariesHaveNoChains();
    TraduzirTwice(DICIONARIOS, r);
  }

  // ---------------------------------------- null drop and integer year (app.py:177-180)

  /** `dropna()`: the complete rows, in order. */
  function DropNa(rows: seq<Row>): (r: seq<Row>)
    ensures forall i :: 0 <= i < |r| ==> Complete(r[i])
    ensures forall x :: x in r <==> x in rows && Complete(x)
    ensures forall x :: multiset(r)[x] == if Complete(x) then multiset(rows)[x] else 0
    ensures IsSubsequence(r, rows)
  {
    Filter(Complete, rows)
  }

  /** `astype('int64')` of a float: truncation toward zero. */
  function TruncarInt64(x: real): (k: int)
    ensures 0.0 <= x ==> k as real <= x < k as real + 1.0
    ensures x < 0.0 ==> k as real - 1.0 < x <= k as real
  {
    if x >= 0.0 then x.Floor else -((-x).Floor)
  }

  /** A whole-number year keeps its value. */
  lemma TruncarAnoInteiro(k: int)
    ensures TruncarInt64(k as real) == k
  {
  }

  /** A complete row as a record, with `ano` cast to an integer. */
  function ParaRegistro(r: Row): Record
    requires Complete(r)
  {
    Record(TruncarInt64(r.ano.value), r.senioridade.value, r.contrato.value, r.cargo.value,
           r.salario.value, r.usd.value, r.salarioUsd.value, r.residencia.value,
           r.remota.value, r.empresa.value, r.tamanhoEmpresa.value)
  }

  /** A record seen as a raw row again: every cell present, the year as a float. */
  function ParaLinha(r: Record): Row
  {
    Row(Some(r.ano as real), Some(r.senioridade), Some(r.contrato), Some(r.cargo),
        Some(r.salario), Some(r.usd), Some(r.salarioUsd), Some(r.residencia),
        Some(r.remota), Some(r.empresa), Some(r.tamanhoEmpresa))
  }

  /** `df['ano'] = df['ano'].astype('int64')` on a table without nulls: every year
      becomes an integer and no other column changes. */
  function CastAno(rows: seq<Row>): (r: seq<Record>)
    requires forall i :: 0 <= i < |rows| ==> Complete(rows[i])
    ensures |r| == |rows|
    ensures forall i :: 0 <= i < |rows| ==>
              Complete(rows[i]) && ParaLinha(r[i]) == rows[i].(ano := Some(TruncarInt64(rows[i].ano.value) as real))
  {
    seq(|rows|, i requires 0 <= i < |rows| => ParaRegistro(rows[i]))
  }

  /** With whole-number years the cast loses nothing: the rows come back from the records. */
  lemma CastAnoRoundTrip(rows: seq<Row>)
    requires forall i :: 0 <= i < |rows| ==> Complete(rows[i])
    requires forall i :: 0 <= i < |rows| ==> rows[i].ano.Some? && rows[i].ano.value == rows[i].ano.value.Floor as real
    ensures |CastAno(rows)| == |rows|
    ensures forall i :: 0 <= i < |rows| ==> ParaLinha(CastAno(rows)[i]) == rows[i]
  {
    forall i | 0 <= i < |rows|
      ensures ParaLinha(CastAno(rows)[i]) == rows[i]
    {
      TruncarAnoInteiro(rows[i].ano.value.Floor);
    }
  }

  /** Null drop followed by the integer year. */
  function Limpar(rows: seq<Row>): seq<Record>
  {
    CastAno(DropNa(rows))
  }

  /** `processar_dados` without the load: rename, translate, drop nulls, cast the year. */
  method ProcessarDados(raw: Frame) returns (df: Table)
    ensures df.columns == RenameColumns(COLUNAS_TRADUZIDAS, raw.columns)
    ensures df.records == Limpar(LinhasTraduzidas(DICIONARIOS, raw.rows))
    ensures |df.records| <= |raw.rows|
  {
    var frame := TraduzirColunas(raw);
    var rows := TraduzirValores(frame.rows);
    rows := DropNa(rows);
    df := Table(frame.columns, CastAno(rows));
  }

  /** What the normalized table holds: the complete raw rows, translated, in their
      original order. A row with a null anywhere is absent; every complete row is
      present, as often as it occurs. */
  lemma ProcessadoSaoAsLinhasCompletas(rows: seq<Row>)
    ensures var kept := DropNa(LinhasTraduzidas(DICIONARIOS, rows));
            && |Limpar(LinhasTraduzidas(DICIONARIOS, rows))| == |kept| <= |rows|
            && IsSubsequence(kept, LinhasTraduzidas(DICIONARIOS, rows))
            && (forall i :: 0 <= i < |rows| && Complete(rows[i]) ==>
                  TraduzirLinha(DICIONARIOS, rows[i]) in kept)
            && (forall x :: x in kept ==>
                  exists i :: 0 <= i < |rows| && Complete(rows[i]) && x == TraduzirLinha(DICIONARIOS, rows[i]))
  {
    var t := LinhasTraduzidas(DICIONARIOS, rows);
    forall i | 0 <= i < |rows| && Complete(rows[i])
      ensures TraduzirLinha(DICIONARIOS, rows[i]) in DropNa(t)
    {
      TraduzirPreservaNulos(DICIONARIOS, rows[i]);
      assert t[i] in t;
    }
    forall x | x in DropNa(t)
      ensures exists i :: 0 <= i < |rows| && Complete(rows[i]) && x == TraduzirLinha(DICIONARIOS, rows[i])
    {
      var i :| 0 <= i < |t| && t[i] == x;
      TraduzirPreservaNulos(DICIONARIOS, rows[i]);
    }
  }
}
