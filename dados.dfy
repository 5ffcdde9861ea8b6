/** The salary table: raw rows as loaded (every cell may be null), normalized
    records, and the fixed dictionaries of the dashboard (app.py, lines 19-61). */
module Dados {
  import opened Options

  /** A `remota` cell: the numeric code of the source (0, 50, 100, or anything else)
      or, once translated, its display label. An unmapped code stays numeric. */
  datatype Remote = Ratio(code: int) | Mode(rotulo: string)

  /** One raw row. Its eleven fields are the eleven columns of the source file
      (`work_year` ... `company_size`), named here by the canonical names the rename
      gives them; `None` is a null cell. `ano` is read as a float, as pandas does
      for a numeric column that may hold nulls. */
  datatype Row = Row(
    ano: Option<real>,
    senioridade: Option<string>,
    contrato: Option<string>,
    cargo: Option<string>,
    salario: Option<int>,
    usd: Option<string>,
    salarioUsd: Option<int>,
    residencia: Option<string>,
    remota: Option<Remote>,
    empresa: Option<string>,
    tamanhoEmpresa: Option<string>)

  /** A row without a null cell. */
  predicate Complete(r: Row)
  {
    && r.ano.Some? && r.senioridade.Some? && r.contrato.Some? && r.cargo.Some?
    && r.salario.Some? && r.usd.Some? && r.salarioUsd.Some? && r.residencia.Some?
    && r.remota.Some? && r.empresa.Some? && r.tamanhoEmpresa.Some?
  }

  /** The raw table: the column header and the rows. */
  datatype Frame = Frame(columns: seq<string>, rows: seq<Row>)

  /** One normalized record: no field can be null and `ano` is an integer. */
  datatype Record = Record(
    ano: int,
    senioridade: string,
    contrato: string,
    cargo: string,
    salario: int,
    usd: string,
    salarioUsd: int,
    residencia: string,
    remota: Remote,
    empresa: string,
    tamanhoEmpresa: string)

  /** The normalized table. */
  datatype Table = Table(columns: seq<string>, records: seq<Record>)

  /** The five dictionaries with which a frame is normalized. */
  datatype Dictionaries = Dictionaries(
    colunas: map<string, string>,
    senioridade: map<string, string>,
    contrato: map<string, string>,
    tamanhoEmpresa: map<string, string>,
    remota: map<int, string>)

  const COLUNAS_TRADUZIDAS: map<string, string> := map[
    "work_year" := "ano",
    "experience_level" := "senioridade",
    "employment_type" := "contrato",
    "job_title" := "cargo",
    "salary" := "salario",
    "salary_currency" := "usd",
    "salary_in_usd" := "salario_usd",
    "employee_residence" := "residencia",
    "remote_ratio" := "remota",
    "company_location" := "empresa",
    "company_size" := "tamanho_empresa"]

  const TRADUCAO_SENIORIDADE: map<string, string> := map[
    "EN" := "junior",
    "MI" := "Pleno",
    "SE" := "Senior",
    "EX" := "executivo"]

  const TRADUCAO_CONTRATO: map<string, string> := map[
    "FT" := "Tempo Integral",
    "PT" := "Meio Período",
    "CT" := "Contrato",
    "FL" := "Freelancer"]

  const TRADUCAO_TAMANHO_EMPRESA: map<string, string> := map[
    "S" := "Pequena",
    "M" := "Média",
    "L" := "Grande"]

  const TRADUCAO_REMOTA: map<int, string> := map[
    0 := "Presencial",
    50 := "Híbrido",
    100 := "Remoto"]

  /** The dashboard's dictionaries (app.py). */
  const DICIONARIOS: Dictionaries := Dictionaries(
    COLUNAS_TRADUZIDAS, TRADUCAO_SENIORIDADE, TRADUCAO_CONTRATO,
    TRADUCAO_TAMANHO_EMPRESA, TRADUCAO_REMOTA)

  /** The translated title the country view is restricted to. */
  const CARGO_DATA_SCIENTIST: string := "Cientista de Dados"

  /** How many titles the top-titles view keeps. */
  const TOP_CARGOS_LIMITE: nat := 10

  // Column projections; a whole column is `Map` of one of them over the records.

  function AnoDe(r: Record): int { r.ano }
  function SenioridadeDe(r: Record): string { r.senioridade }
  function ContratoDe(r: Record): string { r.contrato }
  function CargoDe(r: Record): string { r.cargo }
  function SalarioUsdDe(r: Record): int { r.salarioUsd }
  function ResidenciaDe(r: Record): string { r.residencia }
  function RemotaDe(r: Record): Remote { r.remota }
  function TamanhoEmpresaDe(r: Record): string { r.tamanhoEmpresa }
}
